# DASH-over-QUIC/TCP experiment harness: verified model of its plain logic

The repository runs adaptive-bitrate (DASH) streaming experiments in the ns-3
simulator, over either QUIC or TCP, across one point-to-point link. Almost all
of it hands values to ns-3. This project models the part that is ordinary
string and enumeration logic, and proves what it promises:

- **The driver** (`scratch/dash-streaming.cc`, module `DashStreaming` in
  `dash_streaming.dfy`):
  - the protocol gate `isValidProtocol`. It upper-cases a by-value copy of the
    name in place, character by character, and accepts exactly `QUIC` or `TCP`;
  - the per-run folder `createLoggingFolder`. It issues three `mkdir` requests,
    parent first, and returns `dashLogDirectory + algo + "/" + to_string(id) + "/"`;
  - the set-up order in `main`: validate, then create the folder, then derive
    the packet-capture prefix. The parameters handed to the simulator are
    recorded as data.
- **The sweep script** (`run_simulations.py`, module `RunSimulations` in
  `run_simulations.dfy`):
  - the four parameter lists;
  - the generator enumerating their product with consecutive ids;
  - the strings derived per run: banner, output directory, output file name,
    simulator command line and log-source directory;
  - `main`, which turns every configuration into one run.
- **Both together** (module `Experiment` in `experiment.dfy`): every run the
  script launches passes the driver's gate. The script copies logs from the
  folder the driver created for that run exactly when the driver's log root
  is `dash-log-files/`, the directory the script reads from.
  Ids below 2^31 are a further condition, but every id in the sweep is below 132.
- `text.dfy` (module `Text`) holds decimal rendering of integers, as Python
  `str()` and C++ `std::to_string` produce it, and `str.join`. Each comes with
  a parser that inverts it.

Modelling choices:

- `dashLogDirectory` is a global the driver uses but does not define. It is a
  parameter (`logDir`).
- `mkdir` is a method of a small `FileSystem` class. It adds the path to the
  set of directories and appends it to a ghost log of requests. Its result is
  ignored, as in the driver.
- `NS_ASSERT_MSG` is compiled only into ns-3 builds with assertions enabled.
  `RunDashStreaming` therefore takes `assertionsEnabled`. Only in such builds
  does the gate stop the run. When it does, it stops before any directory is
  requested. What the stream applications do with an unsupported name is not
  modelled.
- `main` reads `simulationId` as `uint32_t` and passes it to the `int`
  parameter of `createLoggingFolder`. The model converts it explicitly
  (`Int32OfUint32`). Ids from 2^31 on therefore produce a folder named with a
  minus sign.
- The name given to `isValidProtocol` is a Dafny `string`, which is a value.
  So the caller's string cannot change; the in-place upper-casing works on a
  freshly allocated array copy.
- Python's generator is modelled as a method that returns the yielded items
  as a sequence, in order.

The model follows the code:

- The help text of the `pacingEnabled` flag (scratch/dash-streaming.cc:115)
  says the pacing rate equals the data rate. The code only sets
  `EnablePacing`, and the declared `pacingRate` is never used. So nothing
  ties a pacing rate to the data rate.
- The loss model is attached to the client device for every rate, 0 included.
- The gate returns a boolean.
- `mkdir` results are ignored.

## Model

| member | source | states |
|---|---|---|
| `DashStreaming.IsValidProtocol` | scratch/dash-streaming.cc:59-66 | upper-casing a copy in place and comparing accepts exactly the names whose ASCII upper-casing is `QUIC` or `TCP` |
| `DashStreaming.ValidProtocolSpelling` | scratch/dash-streaming.cc:59-66 | a name is accepted iff it spells QUIC or TCP letter by letter, each letter in either case |
| `DashStreaming.ValidProtocolIgnoresCase` | scratch/dash-streaming.cc:61-65 | the verdict on a name equals the verdict on its upper-cased form |
| `DashStreaming.ValidProtocolLength` | scratch/dash-streaming.cc:65 | only names of length 3 or 4 can be accepted |
| `DashStreaming.ValidProtocolExamples` | scratch/dash-streaming.cc:59-66 | `quic`, `Quic`, `Tcp`, `tCp` are accepted; `UDP`, `udp`, the empty name and `QUIC ` are rejected |
| `DashStreaming.UpperIdempotent` | scratch/dash-streaming.cc:61-63 | upper-casing twice equals upper-casing once |
| `DashStreaming.Int32OfUint32` | scratch/dash-streaming.cc:44 | the uint32 id becomes the int in [-2^31, 2^31) congruent to it modulo 2^32 |
| `DashStreaming.Int32OfUint32Injective` | scratch/dash-streaming.cc:44 | distinct uint32 ids stay distinct after the conversion |
| `DashStreaming.LoggingFolderRequests` | scratch/dash-streaming.cc:45-54 | three directories are requested and the last is the returned path |
| `DashStreaming.LoggingFolderShape` | scratch/dash-streaming.cc:48-56 | the returned path starts with logDir + algo, has '/' after it, ends in '/', and its last component parses back to the id |
| `DashStreaming.LoggingFolderInjective` | scratch/dash-streaming.cc:52 | for a fixed algorithm the path is equal for two ids iff the ids are equal |
| `DashStreaming.LoggingFolderRequestOrder` | scratch/dash-streaming.cc:45-54 | each request is a prefix of the next; the last step is proper; the first is proper iff the algorithm name is non-empty |
| `DashStreaming.DirectoriesAfter` | scratch/dash-streaming.cc:45-54 | after the requests the leaf folder exists and every earlier directory is still there |
| `DashStreaming.DirectoriesAfterIdempotent` | scratch/dash-streaming.cc:45-54 | creating the same folder a second time adds no directory |
| `DashStreaming.FileSystem.constructor` | scratch/dash-streaming.cc:46 | the tree starts with the given directories and an empty request log |
| `DashStreaming.FileSystem.Mkdir` | scratch/dash-streaming.cc:46 | a request adds the path (whether or not it existed) and is logged in order |
| `DashStreaming.CreateLoggingFolder` | scratch/dash-streaming.cc:43-57 | returns the per-run path, logs exactly the three requests parent first, and leaves exactly those directories added |
| `DashStreaming.TransportDefaultsSymmetric` | scratch/dash-streaming.cc:135-147 | TCP segment size equals QUIC packet size (1446), all send and receive buffers are 524288 for both transports, and the pacing key is set iff pacing was asked for |
| `DashStreaming.PlanFor` | scratch/dash-streaming.cc:157-206 | the capture prefix lies inside the run folder, client and server are different nodes, the server starts before the client, and the loss rate is passed through unconditionally |
| `DashStreaming.RunDashStreaming` | scratch/dash-streaming.cc:120-172 | with assertions enabled an unsupported protocol aborts with the offending name and touches no directory; otherwise the folder for the converted id is created and the plan is built from it |
| `RunSimulations.ConfigCountIs132` | run_simulations.py:14-17 | the sweep has 2 * 3 * 11 * 2 = 132 configurations |
| `RunSimulations.ConfigAt` | run_simulations.py:80 | the item at position i carries id i |
| `RunSimulations.IndexOf` | run_simulations.py:76-79 | nesting-order positions of the combinations fall inside the sweep |
| `RunSimulations.ConfigAtIndexOf` | run_simulations.py:76-80 | the combination (protocol p, algo a, bitrate b, pacing q) is yielded at position ((p*3 + a)*11 + b)*2 + q with fields in the order protocol, bitrate, algo, pacing, id |
| `RunSimulations.Coordinates` | run_simulations.py:76-79 | the nesting-order position of (p, a, b, q) divides back into exactly p, a, b and q |
| `RunSimulations.IndexOfConfigAt` | run_simulations.py:76-79 | every position splits back into the coordinates it is read from (i/66, (i/22)%3, (i/2)%11, i%2) |
| `RunSimulations.GenerateConfigs` | run_simulations.py:74-81 | the four nested loops with their counter yield exactly 132 items, the k-th being the combination at position k with id k |
| `RunSimulations.PacingString` | run_simulations.py:32-33 | the label is `pacing` exactly when the value is `"true"` and `no-pacing` for every other string |
| `RunSimulations.OutputDirComponents` | run_simulations.py:39-41 | the directory is baseDir, then protocol, algo, bitrate and pacing label as '/'-separated components (algo before bitrate), then a final '/' |
| `RunSimulations.OutputFileNameFields` | run_simulations.py:35-37 | the file name is `output_`, then protocol, algo, bitrate and pacing label joined by '_', then `.log` |
| `RunSimulations.BannerPacingLabel` | run_simulations.py:50-52 | the banner ends in the directory pacing label only for pacing runs; otherwise it says `no pacing`, not `no-pacing` |
| `RunSimulations.ConfigStringDistinctIds` | run_simulations.py:50-52 | runs with different ids get different banners |
| `RunSimulations.FlagValue` | run_simulations.py:21-25 | a value is read from a flag only when the argument is exactly `--key=value` |
| `RunSimulations.WafCommandRoundTrip` | run_simulations.py:19-30 | for values without spaces, the command line decodes to simulationId, adaptationAlgo, dataRate, pacingEnabled and transportProtocol with exactly the values given |
| `RunSimulations.ListsWellFormed` | run_simulations.py:14-17 | the entries of each list are distinct and contain no '/', '_' or space, and the two pacing values get different labels |
| `RunSimulations.PacingValsWellFormed` | run_simulations.py:32-33 | the two pacing values are distinct and separator-free, and map to different separator-free labels |
| `RunSimulations.ConfigAtClean` | run_simulations.py:14-17 | every generated configuration has separator-free fields and labels, and its protocol is `QUIC` or `TCP` |
| `RunSimulations.FieldsDetermineId` | run_simulations.py:74-81 | two generated configurations with equal protocol, algorithm, bitrate and pacing label have the same id |
| `RunSimulations.RunLabelsDistinct` | run_simulations.py:39-41 | two generated configurations have the same four labels iff they are the same configuration |
| `RunSimulations.OutputDirsDistinct` | run_simulations.py:39-41 | no two generated configurations share an output directory |
| `RunSimulations.OutputFileNamesDistinct` | run_simulations.py:35-37 | no two generated configurations share an output file name |
| `RunSimulations.PlanRun` | run_simulations.py:54-72 | the output path lies inside the output directory, which ends in '/' |
| `RunSimulations.SweepOutputDirsDistinct` | run_simulations.py:39-41 | in the plans of the whole sweep, taken in order, no output directory repeats |
| `RunSimulations.RunAll` | run_simulations.py:84-85 | the loop produces one plan per configuration, the k-th from the k-th configuration |
| `RunSimulations.RunSweep` | run_simulations.py:83-85 | main runs the 132 configurations in generation order, each with its own output directory |
| `Experiment.SweepRunsPassGate` | run_simulations.py:25 | the protocol every generated command carries reads back unchanged and passes the driver's gate |
| `Experiment.LogSourceIsDriverFolder` | run_simulations.py:69 | for ids below 2^31, the log-source directory equals the driver's folder exactly when the driver's log root is `dash-log-files/` |
| `Experiment.LogSourceDivergesFromTwoToThe31` | scratch/dash-streaming.cc:132 | from 2^31 on, the driver's folder has a negative id, so it differs from the script's log-source directory even under the root `dash-log-files/` |
| `Experiment.SweepLogSourcesMatch` | run_simulations.py:69 | every generated run copies its logs from the folder the driver created for it exactly when the driver's log root is `dash-log-files/` |
| `Text.IntToStringRoundTrip` | scratch/dash-streaming.cc:52 | the decimal rendering of an int (with '-' when negative) parses back to the int |
| `Text.ParseNatToString` | run_simulations.py:21 | the decimal rendering of a natural number parses back to it |
| `Text.SplitJoin` | run_simulations.py:28 | splitting a space-joined argument list returns the arguments when none contains a space |
| `Text.JoinSplit` | run_simulations.py:28 | joining the pieces of a split restores the string, and no piece contains the separator |

## Left out

- Everything `main` configures inside ns-3: nodes, the point-to-point link, the QUIC stack, addresses, the stream applications and the simulator run. It is library code that is not part of this model; only the values handed over are recorded.
- The stochastic loss model, beyond recording that the rate is always attached to the client device.
- Command-line parsing and the log-level set-up. Flags left unset keep uninitialised values in the driver; the model assumes every flag is supplied.
- Real file-system behaviour: permission bits, `mkdir` failing because a parent is missing or access is denied, and its error codes. The driver ignores them.
- `std::toupper` on characters outside ASCII, and on negative `char` values.
- The I/O parts of the script: the argument-count check and `exit`, `print`, `Path.mkdir`, opening the output file, `subprocess.run`, and `copyFiles`.
- `scratch/simple-tcp-streaming.cc` and `scratch/mtu-streaming-issue-demo.cc`. Their `createLoggingFolder` is the same text as the driver's and is covered by `CreateLoggingFolder`. The rest of each file sets up ns-3.
- RunSimulations.DecodeWafCommand: models the shell and waf cutting arguments at single spaces only, not full shell quoting.
