/**
 The experiment sweep of run_simulations.py: the four parameter lists, the
 generator that enumerates their product with consecutive ids, and the
 strings each configuration is turned into (banner, output directory,
 output file name, simulator command line, log-source directory).
 Running the simulator, copying files and printing are not modelled.
 */
module RunSimulations {
  import opened Text

  const Bitrates: seq<string> := ["100Kbps", "500Kbps", "1Mbps", "2Mbps", "3Mbps", "4Mbps", "5Mbps", "10Mbps", "100Mbps", "500Mbps", "1Gbps"]
  const Algos: seq<string> := ["panda", "festive", "tobasco"]
  const PacingVals: seq<string> := ["true", "false"]
  const Protocols: seq<string> := ["QUIC", "TCP"]

  /** One yielded item, fields in the generator's order: protocol, bitrate, algorithm, pacing, id. */
  datatype SimConfig = SimConfig(protocol: string, bitrate: string, algo: string, pacing: string, id: nat)

  /** Number of configurations: the product of the four list lengths. */
  const ConfigCount: nat := |Protocols| * |Algos| * |Bitrates| * |PacingVals|

  /**
   Position of a combination in the generator's nesting order: protocol
   outermost (a block of 3 * 11 * 2 = 66 items each), then algorithm
   (11 * 2 = 22 items each), then bitrate (2 items each), pacing innermost.
   */
  function IndexOf(p: nat, a: nat, b: nat, q: nat): (i: nat)
    requires p < |Protocols| && a < |Algos| && b < |Bitrates| && q < |PacingVals|
    ensures i < ConfigCount
  {
    p * 66 + a * 22 + b * 2 + q
  }

  /** The item with id i, read off the index by division. */
  function ConfigAt(i: nat): (c: SimConfig)
    requires i < ConfigCount
    ensures c.id == i
  {
    SimConfig(Protocols[i / 66], Bitrates[(i / 2) % 11], Algos[(i / 22) % 3], PacingVals[i % 2], i)
  }

  lemma ConfigCountIs132()
    ensures ConfigCount == 132
  {
  }

  /** The four coordinates are read back off a nesting-order position by division. */
  lemma Coordinates(p: nat, a: nat, b: nat, q: nat)
    requires p < 2 && a < 3 && b < 11 && q < 2
    ensures var i := p * 66 + a * 22 + b * 2 + q;
      i / 66 == p && (i / 22) % 3 == a && (i / 2) % 11 == b && i % 2 == q
  {
    var i := p * 66 + a * 22 + b * 2 + q;
    var pairs := p * 33 + a * 11 + b;
    var blocks := p * 3 + a;
    assert i / 2 == pairs && i % 2 == q by { assert i == 2 * pairs + q; }
    assert pairs % 11 == b by { assert pairs == 11 * blocks + b; }
    assert i / 22 == blocks by { assert i == 22 * blocks + (b * 2 + q); }
    assert blocks % 3 == a by { assert blocks == 3 * p + a; }
    assert i / 66 == p by { assert i == 66 * p + (a * 22 + b * 2 + q); }
  }

  /** Every combination sits at its nesting-order position. */
  lemma ConfigAtIndexOf(p: nat, a: nat, b: nat, q: nat)
    requires p < |Protocols| && a < |Algos| && b < |Bitrates| && q < |PacingVals|
    ensures var i := IndexOf(p, a, b, q);
      ConfigAt(i) == SimConfig(Protocols[p], Bitrates[b], Algos[a], PacingVals[q], i)
  {
    var i := IndexOf(p, a, b, q);
    Coordinates(p, a, b, q);
    assert i / 66 == p && (i / 22) % 3 == a && (i / 2) % 11 == b && i % 2 == q;
  }

  /** Every position holds some combination: the index splits back into its four coordinates. */
  lemma IndexOfConfigAt(i: nat)
    requires i < ConfigCount
    ensures IndexOf(i / 66, (i / 22) % 3, (i / 2) % 11, i % 2) == i
  {
    var pairs, blocks := i / 2, i / 22;
    assert i == 2 * pairs + i % 2;
    assert pairs / 11 == blocks;
    assert pairs == 11 * blocks + pairs % 11;
    assert blocks / 3 == i / 66;
    assert blocks == 3 * (i / 66) + blocks % 3;
  }

  /** configs holds exactly the first n items of the sweep. */
  ghost predicate GeneratedUpTo(configs: seq<SimConfig>, n: nat)
  {
    n <= ConfigCount && |configs| == n && forall k :: 0 <= k < n ==> configs[k] == ConfigAt(k)
  }

  lemma GeneratedUpToExtend(configs: seq<SimConfig>, n: nat)
    requires GeneratedUpTo(configs, n) && n < ConfigCount
    ensures GeneratedUpTo(configs + [ConfigAt(n)], n + 1)
  {
    var next := configs + [ConfigAt(n)];
    forall k | 0 <= k < n + 1 ensures next[k] == ConfigAt(k) {
      if k < n { assert next[k] == configs[k]; }
    }
  }

  /**
   The generator, run to exhaustion: four nested loops over the lists and
   a counter that is bumped after each item.
   */
  method GenerateConfigs() returns (configs: seq<SimConfig>)
    ensures |configs| == ConfigCount
    ensures forall k :: 0 <= k < |configs| ==> configs[k] == ConfigAt(k)
    ensures forall k :: 0 <= k < |configs| ==> configs[k].id == k
  {
    configs := [];
    var id := 0;
    for p := 0 to |Protocols|
      invariant id == p * 66 && GeneratedUpTo(configs, id)
    {
      for a := 0 to |Algos|
        invariant id == p * 66 + a * 22 && GeneratedUpTo(configs, id)
      {
        for b := 0 to |Bitrates|
          invariant id == p * 66 + a * 22 + b * 2 && GeneratedUpTo(configs, id)
        {
          for q := 0 to |PacingVals|
            invariant id == p * 66 + a * 22 + b * 2 + q && GeneratedUpTo(configs, id)
          {
            ConfigAtIndexOf(p, a, b, q);
            GeneratedUpToExtend(configs, id);
            configs := configs + [SimConfig(Protocols[p], Bitrates[b], Algos[a], PacingVals[q], id)];
            id := id + 1;
          }
        }
      }
    }
  }

  // ---------------------------------------------------------------------
  // Formatting
  // ---------------------------------------------------------------------

  function PacingString(pacing: string): (s: string)
    ensures s == "pacing" || s == "no-pacing"
    ensures s == "pacing" <==> pacing == "true"
  {
    if pacing == "true" then "pacing" else "no-pacing"
  }

  function OutputFileName(protocol: string, bitrate: string, algo: string, pacing: string): string
  {
    "output_" + protocol + "_" + algo + "_" + bitrate + "_" + PacingString(pacing) + ".log"
  }

  function OutputDir(baseDir: string, protocol: string, bitrate: string, algo: string, pacing: string): string
  {
    baseDir + "/" + protocol + "/" + algo + "/" + bitrate + "/" + PacingString(pacing) + "/"
  }

  /** The four labels a run is filed under, in directory order: algorithm before bitrate. */
  function RunLabels(protocol: string, bitrate: string, algo: string, pacing: string): seq<string>
  {
    [protocol, algo, bitrate, PacingString(pacing)]
  }

  /** The directory is baseDir, then the four labels as nested components, then a closing '/'. */
  lemma OutputDirComponents(baseDir: string, protocol: string, bitrate: string, algo: string, pacing: string)
    ensures OutputDir(baseDir, protocol, bitrate, algo, pacing)
      == baseDir + "/" + Join(RunLabels(protocol, bitrate, algo, pacing), '/') + "/"
  {
    JoinFour(protocol, algo, bitrate, PacingString(pacing), '/');
  }

  /** The file name is "output_", the four labels joined by '_', then ".log". */
  lemma OutputFileNameFields(protocol: string, bitrate: string, algo: string, pacing: string)
    ensures OutputFileName(protocol, bitrate, algo, pacing)
      == "output_" + Join(RunLabels(protocol, bitrate, algo, pacing), '_') + ".log"
  {
    JoinFour(protocol, algo, bitrate, PacingString(pacing), '_');
  }

  /** The progress banner; note it spells the no-pacing case with a space. */
  function ConfigString(protocol: string, bitrate: string, algo: string, pacing: string, simId: nat): string
  {
    "Simulation " + NatToString(simId) + ": " + algo + " over " + protocol + " @ " + bitrate + " - "
      + (if pacing == "true" then "pacing" else "no pacing")
  }

  /** The banner and the directory label agree only for pacing runs ("no pacing" vs "no-pacing"). */
  lemma BannerPacingLabel(protocol: string, bitrate: string, algo: string, pacing: string, simId: nat)
    ensures var banner := ConfigString(protocol, bitrate, algo, pacing, simId);
      banner[|banner| - |PacingString(pacing)|..] == PacingString(pacing) <==> pacing == "true"
  {
    var banner := ConfigString(protocol, bitrate, algo, pacing, simId);
    if pacing != "true" {
      assert banner[|banner| - 9..][2] == ' ';
    }
  }

  /** Banners of runs with different ids differ, whatever the other fields. */
  lemma ConfigStringDistinctIds(c: SimConfig, d: SimConfig)
    requires c.id != d.id
    ensures ConfigString(c.protocol, c.bitrate, c.algo, c.pacing, c.id)
         != ConfigString(d.protocol, d.bitrate, d.algo, d.pacing, d.id)
  {
    var s := ConfigString(c.protocol, c.bitrate, c.algo, c.pacing, c.id);
    var t := ConfigString(d.protocol, d.bitrate, d.algo, d.pacing, d.id);
    var x, x' := NatToString(c.id), NatToString(d.id);
    var y := s[11 + |x| + 1..];
    var y' := t[11 + |x'| + 1..];
    assert s == "Simulation " + (x + [':'] + y);
    assert t == "Simulation " + (x' + [':'] + y');
    if s == t {
      assert x + [':'] + y == s[11..] == t[11..] == x' + [':'] + y';
      assert ':' !in x && ':' !in x' by {
        assert AllDigits(x) && AllDigits(x');
      }
      FirstFieldDetermined(x, y, x', y', ':');
      NatToStringInjective(c.id, d.id);
    }
  }

  const WafPrefix: string := "./waf --run=\"dash-streaming "

  function Flag(key: string, value: string): string
  {
    "--" + key + "=" + value
  }

  /** The five flags, in the order the simulator receives them. */
  function WafFlags(protocol: string, bitrate: string, algo: string, pacing: string, simId: nat): seq<string>
  {
    [ Flag("simulationId", NatToString(simId)),
      Flag("adaptationAlgo", algo),
      Flag("dataRate", bitrate),
      Flag("pacingEnabled", pacing),
      Flag("transportProtocol", protocol) ]
  }

  function WafCommand(protocol: string, bitrate: string, algo: string, pacing: string, simId: nat): string
  {
    WafPrefix + Join(WafFlags(protocol, bitrate, algo, pacing, simId), ' ') + "\""
  }

  /** The values the driver's command-line parser is handed, by flag. */
  datatype RunArguments = RunArguments(
    simulationId: nat,
    adaptationAlgo: string,
    dataRate: string,
    pacingEnabled: string,
    transportProtocol: string)

  function FlagValue(arg: string, key: string): (r: Option<string>)
    ensures r.Some? ==> arg == Flag(key, r.value)
  {
    var head := "--" + key + "=";
    if head <= arg then Some(arg[|head|..]) else None
  }

  /**
   Reads a command back: strips the fixed prefix and the closing quote,
   cuts at spaces (as the shell and waf do) and takes each flag's value.
   */
  function DecodeWafCommand(cmd: string): Option<RunArguments>
  {
    if |cmd| < |WafPrefix| + 1 || cmd[..|WafPrefix|] != WafPrefix || cmd[|cmd| - 1] != '"' then None
    else
      var flags := Split(cmd[|WafPrefix|..|cmd| - 1], ' ');
      if |flags| != 5 then None
      else
        var idText :- FlagValue(flags[0], "simulationId");
        var id :- ParseNat(idText);
        var algo :- FlagValue(flags[1], "adaptationAlgo");
        var rate :- FlagValue(flags[2], "dataRate");
        var pacing :- FlagValue(flags[3], "pacingEnabled");
        var protocol :- FlagValue(flags[4], "transportProtocol");
        Some(RunArguments(id, algo, rate, pacing, protocol))
  }

  lemma FlagValueOfFlag(key: string, value: string)
    ensures FlagValue(Flag(key, value), key) == Some(value)
  {
    var head := "--" + key + "=";
    assert Flag(key, value) == head + value;
  }

  /**
   The command carries every value to its own flag unchanged, as long as
   no value contains a space.
   */
  lemma WafCommandRoundTrip(protocol: string, bitrate: string, algo: string, pacing: string, simId: nat)
    requires ' ' !in protocol && ' ' !in bitrate && ' ' !in algo && ' ' !in pacing
    ensures DecodeWafCommand(WafCommand(protocol, bitrate, algo, pacing, simId))
      == Some(RunArguments(simId, algo, bitrate, pacing, protocol))
  {
    var flags := WafFlags(protocol, bitrate, algo, pacing, simId);
    var cmd := WafCommand(protocol, bitrate, algo, pacing, simId);
    var body := Join(flags, ' ');
    assert cmd[..|WafPrefix|] == WafPrefix;
    assert cmd[|WafPrefix|..|cmd| - 1] == body;
    assert AllDigits(NatToString(simId));
    assert FreeOf(flags, ' ');
    SplitJoin(flags, ' ');
    FlagValueOfFlag("simulationId", NatToString(simId));
    FlagValueOfFlag("adaptationAlgo", algo);
    FlagValueOfFlag("dataRate", bitrate);
    FlagValueOfFlag("pacingEnabled", pacing);
    FlagValueOfFlag("transportProtocol", protocol);
    ParseNatToString(simId);
  }

  /** Where the script copies a run's client logs from, relative to the working directory. */
  function LogFilesDir(algo: string, simId: nat): string
  {
    "dash-log-files/" + algo + "/" + NatToString(simId) + "/"
  }

  // ---------------------------------------------------------------------
  // The lists are clean, and so the labels tell runs apart
  // ---------------------------------------------------------------------

  predicate Distinct(xs: seq<string>)
  {
    forall i, j :: 0 <= i < |xs| && 0 <= j < |xs| && xs[i] == xs[j] ==> i == j
  }

  /** No character the formats use as a separator: '/', '_' or a space. */
  predicate CleanField(s: string)
  {
    '/' !in s && '_' !in s && ' ' !in s
  }

  predicate Clean(xs: seq<string>)
  {
    forall i :: 0 <= i < |xs| ==> CleanField(xs[i])
  }

  lemma ProtocolsWellFormed()
    ensures Distinct(Protocols) && Clean(Protocols)
  {
  }

  lemma AlgosWellFormed()
    ensures Distinct(Algos) && Clean(Algos)
  {
  }

  lemma BitratesDistinct()
    ensures Distinct(Bitrates)
  {
  }

  lemma BitratesClean()
    ensures Clean(Bitrates)
  {
  }

  /** Both pacing values and both of their labels are separator-free, and the labels differ. */
  lemma PacingValsWellFormed()
    ensures Distinct(PacingVals) && Clean(PacingVals)
    ensures CleanField(PacingString(PacingVals[0])) && CleanField(PacingString(PacingVals[1]))
    ensures PacingString(PacingVals[0]) != PacingString(PacingVals[1])
  {
    assert PacingString(PacingVals[0]) == "pacing" && PacingString(PacingVals[1]) == "no-pacing";
  }

  lemma ListsWellFormed()
    ensures Distinct(Protocols) && Distinct(Algos) && Distinct(Bitrates) && Distinct(PacingVals)
    ensures Clean(Protocols) && Clean(Algos) && Clean(Bitrates) && Clean(PacingVals)
    ensures PacingString(PacingVals[0]) != PacingString(PacingVals[1])
  {
    ProtocolsWellFormed();
    AlgosWellFormed();
    BitratesDistinct();
    BitratesClean();
    PacingValsWellFormed();
  }

  /** Equal entries of a list of distinct entries sit at equal positions. */
  lemma DistinctAt(xs: seq<string>, k: nat, l: nat)
    requires Distinct(xs) && k < |xs| && l < |xs| && xs[k] == xs[l]
    ensures k == l
  {
  }

  /** Two generated configurations with the same protocol, algorithm, bitrate and pacing label have the same id. */
  lemma FieldsDetermineId(i: nat, j: nat)
    requires i < ConfigCount && j < ConfigCount
    requires ConfigAt(i).protocol == ConfigAt(j).protocol && ConfigAt(i).algo == ConfigAt(j).algo
    requires ConfigAt(i).bitrate == ConfigAt(j).bitrate
    requires PacingString(ConfigAt(i).pacing) == PacingString(ConfigAt(j).pacing)
    ensures i == j
  {
    ProtocolsWellFormed();
    AlgosWellFormed();
    BitratesDistinct();
    PacingValsWellFormed();
    DistinctAt(Protocols, i / 66, j / 66);
    DistinctAt(Algos, (i / 22) % 3, (j / 22) % 3);
    DistinctAt(Bitrates, (i / 2) % 11, (j / 2) % 11);
    assert ConfigAt(i).pacing == PacingVals[i % 2] && ConfigAt(j).pacing == PacingVals[j % 2];
    IndexOfConfigAt(i);
    IndexOfConfigAt(j);
  }

  /** The labels of two generated configurations coincide only for the same id. */
  lemma RunLabelsDistinct(i: nat, j: nat)
    requires i < ConfigCount && j < ConfigCount
    ensures var c, d := ConfigAt(i), ConfigAt(j);
      RunLabels(c.protocol, c.bitrate, c.algo, c.pacing) == RunLabels(d.protocol, d.bitrate, d.algo, d.pacing) <==> i == j
  {
    var c, d := ConfigAt(i), ConfigAt(j);
    var lc, ld := RunLabels(c.protocol, c.bitrate, c.algo, c.pacing), RunLabels(d.protocol, d.bitrate, d.algo, d.pacing);
    if lc == ld {
      assert lc[0] == ld[0] && lc[1] == ld[1] && lc[2] == ld[2] && lc[3] == ld[3];
      FieldsDetermineId(i, j);
    }
  }

  /** The fields of every generated configuration are free of separators; its protocol is QUIC or TCP. */
  lemma ConfigAtClean(i: nat)
    requires i < ConfigCount
    ensures var c := ConfigAt(i);
      && CleanField(c.protocol) && CleanField(c.algo) && CleanField(c.bitrate) && CleanField(c.pacing)
      && CleanField(PacingString(c.pacing))
      && (c.protocol == "QUIC" || c.protocol == "TCP")
  {
    var c := ConfigAt(i);
    ProtocolsWellFormed();
    AlgosWellFormed();
    BitratesClean();
    PacingValsWellFormed();
    assert c.protocol == Protocols[i / 66] && c.algo == Algos[(i / 22) % 3];
    assert c.bitrate == Bitrates[(i / 2) % 11] && c.pacing == PacingVals[i % 2];
  }

  lemma RunLabelsClean(i: nat)
    requires i < ConfigCount
    ensures var c := ConfigAt(i);
      var labels := RunLabels(c.protocol, c.bitrate, c.algo, c.pacing);
      FreeOf(labels, '/') && FreeOf(labels, '_')
  {
    ConfigAtClean(i);
  }

  /** No two generated runs share an output directory. */
  lemma OutputDirsDistinct(baseDir: string, i: nat, j: nat)
    requires i < ConfigCount && j < ConfigCount && i != j
    ensures var c, d := ConfigAt(i), ConfigAt(j);
      OutputDir(baseDir, c.protocol, c.bitrate, c.algo, c.pacing) != OutputDir(baseDir, d.protocol, d.bitrate, d.algo, d.pacing)
  {
    var c, d := ConfigAt(i), ConfigAt(j);
    var lc, ld := RunLabels(c.protocol, c.bitrate, c.algo, c.pacing), RunLabels(d.protocol, d.bitrate, d.algo, d.pacing);
    OutputDirComponents(baseDir, c.protocol, c.bitrate, c.algo, c.pacing);
    OutputDirComponents(baseDir, d.protocol, d.bitrate, d.algo, d.pacing);
    var s, t := baseDir + "/" + Join(lc, '/') + "/", baseDir + "/" + Join(ld, '/') + "/";
    if s == t {
      assert Join(lc, '/') == s[|baseDir| + 1..|s| - 1] == t[|baseDir| + 1..|t| - 1] == Join(ld, '/');
      RunLabelsClean(i);
      RunLabelsClean(j);
      JoinInjective(lc, ld, '/');
      RunLabelsDistinct(i, j);
    }
  }

  /** No two generated runs share an output file name either. */
  lemma OutputFileNamesDistinct(i: nat, j: nat)
    requires i < ConfigCount && j < ConfigCount && i != j
    ensures var c, d := ConfigAt(i), ConfigAt(j);
      OutputFileName(c.protocol, c.bitrate, c.algo, c.pacing) != OutputFileName(d.protocol, d.bitrate, d.algo, d.pacing)
  {
    var c, d := ConfigAt(i), ConfigAt(j);
    var lc, ld := RunLabels(c.protocol, c.bitrate, c.algo, c.pacing), RunLabels(d.protocol, d.bitrate, d.algo, d.pacing);
    OutputFileNameFields(c.protocol, c.bitrate, c.algo, c.pacing);
    OutputFileNameFields(d.protocol, d.bitrate, d.algo, d.pacing);
    var s, t := "output_" + Join(lc, '_') + ".log", "output_" + Join(ld, '_') + ".log";
    if s == t {
      assert Join(lc, '_') == s[7..|s| - 4] == t[7..|t| - 4] == Join(ld, '_');
      RunLabelsClean(i);
      RunLabelsClean(j);
      JoinInjective(lc, ld, '_');
      RunLabelsDistinct(i, j);
    }
  }

  // ---------------------------------------------------------------------
  // One run, and the whole sweep
  // ---------------------------------------------------------------------

  /** The strings runSimulation derives for one configuration. */
  datatype RunPlan = RunPlan(banner: string, outputDir: string, outputPath: string, command: string, logFilesDir: string)

  function PlanRun(baseDir: string, c: SimConfig): (plan: RunPlan)
    ensures plan.outputDir <= plan.outputPath
    ensures |plan.outputDir| > 0 && plan.outputDir[|plan.outputDir| - 1] == '/'
  {
    var dir := OutputDir(baseDir, c.protocol, c.bitrate, c.algo, c.pacing);
    RunPlan(
      ConfigString(c.protocol, c.bitrate, c.algo, c.pacing, c.id),
      dir,
      dir + OutputFileName(c.protocol, c.bitrate, c.algo, c.pacing),
      WafCommand(c.protocol, c.bitrate, c.algo, c.pacing, c.id),
      LogFilesDir(c.algo, c.id))
  }

  /** In the plans of the whole sweep, in order, output directories never repeat. */
  lemma SweepOutputDirsDistinct(baseDir: string, plans: seq<RunPlan>)
    requires |plans| == ConfigCount
    requires forall k :: 0 <= k < |plans| ==> plans[k] == PlanRun(baseDir, ConfigAt(k))
    ensures forall k, l :: 0 <= k < |plans| && 0 <= l < |plans| && k != l ==> plans[k].outputDir != plans[l].outputDir
  {
    forall k, l | 0 <= k < |plans| && 0 <= l < |plans| && k != l
      ensures plans[k].outputDir != plans[l].outputDir
    {
      OutputDirsDistinct(baseDir, k, l);
    }
  }

  /** The loop of main: one runSimulation per configuration, in order. */
  method RunAll(baseDir: string, configs: seq<SimConfig>) returns (plans: seq<RunPlan>)
    ensures |plans| == |configs|
    ensures forall k :: 0 <= k < |plans| ==> plans[k] == PlanRun(baseDir, configs[k])
  {
    plans := [];
    for k := 0 to |configs|
      invariant |plans| == k
      invariant forall m :: 0 <= m < k ==> plans[m] == PlanRun(baseDir, configs[m])
    {
      plans := plans + [PlanRun(baseDir, configs[k])];
    }
  }

  /** main: every generated configuration becomes one run, in generation order, each in a directory of its own. */
  method RunSweep(baseDir: string) returns (plans: seq<RunPlan>)
    ensures |plans| == ConfigCount
    ensures forall k :: 0 <= k < |plans| ==> plans[k] == PlanRun(baseDir, ConfigAt(k))
    ensures forall k, l :: 0 <= k < |plans| && 0 <= l < |plans| && k != l ==> plans[k].outputDir != plans[l].outputDir
  {
    var configs := GenerateConfigs();
    plans := RunAll(baseDir, configs);
    SweepOutputDirsDistinct(baseDir, plans);
  }
}
