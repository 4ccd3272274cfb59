/**
 * Command-line parsing (`parseArguments`, server.js): every known option
 * found in argv gets an entry holding the tokens that follow its first
 * occurrence, one per declared sub-argument; a sub-argument that is missing
 * or is itself a known option name ends the process with code 16.
 */
module Arguments {
  import opened Wrappers

  /** A known option: its name and the labels of the sub-arguments it takes. */
  datatype ArgSpec = ArgSpec(name: string, subArgs: seq<string>)

  /** `exitError(message, code)`: the process ends with this code. */
  datatype Exit = Exit(code: int, message: string)

  /** The parsed options: option name to its sub-argument tokens. */
  type Parsed = map<string, seq<string>>

  const MissingSubArgCode: int := 16

  /** `possibleServerArgs`: `--help` takes nothing, `--config` takes a file name. */
  const ServerArgs: seq<ArgSpec> := [ArgSpec("--help", []), ArgSpec("--config", ["file name"])]

  function Names(specs: seq<ArgSpec>): seq<string> {
    seq(|specs|, i requires 0 <= i < |specs| => specs[i].name)
  }

  /** `Array.prototype.indexOf`: the first position of `x`, or -1. */
  function IndexOf(xs: seq<string>, x: string): (i: int)
    ensures -1 <= i < |xs|
    ensures i == -1 <==> x !in xs
    ensures 0 <= i ==> xs[i] == x && x !in xs[..i]
  {
    if xs == [] then -1
    else if xs[0] == x then 0
    else
      var j := IndexOf(xs[1..], x);
      if j == -1 then -1
      else
        assert xs[..j + 1] == [xs[0]] + xs[1..][..j];
        j + 1
  }

  /** Position `j` of argv holds a sub-argument: it exists and is not a known option name. */
  predicate SlotFilled(argv: seq<string>, names: seq<string>, j: int) {
    0 <= j < |argv| && !(IndexOf(names, argv[j]) > -1)
  }

  function MissingSubArg(spec: ArgSpec, k: nat): Exit
    requires k < |spec.subArgs|
  {
    Exit(MissingSubArgCode, "Invalid argument " + spec.name + ". Missing <" + spec.subArgs[k] + ">.")
  }

  /** The first `n` sub-arguments of `spec`, whose name stands at position `at` of argv. */
  function CollectSubArgs(argv: seq<string>, names: seq<string>, spec: ArgSpec, at: nat, n: nat): Result<seq<string>, Exit>
    requires n <= |spec.subArgs|
  {
    if n == 0 then Ok([])
    else
      match CollectSubArgs(argv, names, spec, at, n - 1)
      case Err(e) => Err(e)
      case Ok(got) =>
        if SlotFilled(argv, names, at + n) then Ok(got + [argv[at + n]])
        else Err(MissingSubArg(spec, n - 1))
  }

  /** One step of the reduce: add `spec`'s entry to `res` when its name occurs in argv. */
  function ParseStep(argv: seq<string>, names: seq<string>, res: Parsed, spec: ArgSpec): Result<Parsed, Exit> {
    var at := IndexOf(argv, spec.name);
    if at > -1 then
      match CollectSubArgs(argv, names, spec, at, |spec.subArgs|)
      case Err(e) => Err(e)
      case Ok(got) => Ok(res[spec.name := got])
    else Ok(res)
  }

  /** The reduce over the first `n` option specifications. */
  function ParseUpTo(specs: seq<ArgSpec>, argv: seq<string>, n: nat): Result<Parsed, Exit>
    requires n <= |specs|
  {
    if n == 0 then Ok(map[])
    else
      match ParseUpTo(specs, argv, n - 1)
      case Err(e) => Err(e)
      case Ok(res) => ParseStep(argv, Names(specs), res, specs[n - 1])
  }

  /** What `parseArguments(specs)` computes from `argv`. */
  function Parse(specs: seq<ArgSpec>, argv: seq<string>): Result<Parsed, Exit> {
    ParseUpTo(specs, argv, |specs|)
  }

  /** Every sub-argument slot of `spec` is filled (vacuous when its name is not in argv). */
  predicate SubArgsPresent(argv: seq<string>, names: seq<string>, spec: ArgSpec) {
    var at := IndexOf(argv, spec.name);
    at > -1 ==> forall j :: at < j <= at + |spec.subArgs| ==> SlotFilled(argv, names, j)
  }

  predicate Distinct(names: seq<string>) {
    forall i, j :: 0 <= i < j < |names| ==> names[i] != names[j]
  }

  lemma {:induction false} CollectSubArgsMeaning(argv: seq<string>, names: seq<string>, spec: ArgSpec, at: nat, n: nat)
    requires n <= |spec.subArgs|
    ensures CollectSubArgs(argv, names, spec, at, n).Ok? <==>
      forall j :: at < j <= at + n ==> SlotFilled(argv, names, j)
    ensures CollectSubArgs(argv, names, spec, at, n).Ok? ==>
      at + n < |argv| || n == 0
    ensures CollectSubArgs(argv, names, spec, at, n).Ok? && at + n < |argv| ==>
      CollectSubArgs(argv, names, spec, at, n).value == argv[at + 1..at + 1 + n]
    ensures CollectSubArgs(argv, names, spec, at, n).Ok? ==> |CollectSubArgs(argv, names, spec, at, n).value| == n
    ensures CollectSubArgs(argv, names, spec, at, n).Err? ==>
      CollectSubArgs(argv, names, spec, at, n).error.code == MissingSubArgCode
  {
    if n > 0 {
      CollectSubArgsMeaning(argv, names, spec, at, n - 1);
      if CollectSubArgs(argv, names, spec, at, n - 1).Ok? && SlotFilled(argv, names, at + n) {
        assert argv[at + 1..at + 1 + n] == argv[at + 1..at + n] + [argv[at + n]];
      }
    }
  }

  /** The entry of `spec` in `res` holds exactly the tokens after its name's first occurrence. */
  predicate HasTokens(res: Parsed, argv: seq<string>, spec: ArgSpec) {
    var at := IndexOf(argv, spec.name);
    && spec.name in res
    && 0 <= at
    && at + 1 + |spec.subArgs| <= |argv|
    && res[spec.name] == argv[at + 1..at + 1 + |spec.subArgs|]
  }

  /** The names of the first `n` options that occur in argv. */
  function PresentNames(specs: seq<ArgSpec>, argv: seq<string>, n: nat): set<string>
    requires n <= |specs|
  {
    set i | 0 <= i < n && specs[i].name in argv :: specs[i].name
  }

  /** One step fails exactly when `spec` occurs with a sub-argument missing, and then with code 16. */
  lemma StepOutcome(argv: seq<string>, names: seq<string>, res: Parsed, spec: ArgSpec)
    ensures ParseStep(argv, names, res, spec).Ok? <==> SubArgsPresent(argv, names, spec)
    ensures ParseStep(argv, names, res, spec).Err? ==> ParseStep(argv, names, res, spec).error.code == MissingSubArgCode
  {
    var at := IndexOf(argv, spec.name);
    if at > -1 {
      CollectSubArgsMeaning(argv, names, spec, at, |spec.subArgs|);
    }
  }

  /**
   * The reduce over the first `n` options fails exactly when one of them
   * occurs with a sub-argument missing, and then always with code 16.
   */
  lemma {:induction false} ParseUpToOutcome(specs: seq<ArgSpec>, argv: seq<string>, n: nat)
    requires n <= |specs|
    ensures ParseUpTo(specs, argv, n).Ok? <==>
      forall i :: 0 <= i < n ==> SubArgsPresent(argv, Names(specs), specs[i])
    ensures ParseUpTo(specs, argv, n).Err? ==> ParseUpTo(specs, argv, n).error.code == MissingSubArgCode
  {
    if n > 0 {
      ParseUpToOutcome(specs, argv, n - 1);
      if ParseUpTo(specs, argv, n - 1).Ok? {
        var res := ParseUpTo(specs, argv, n - 1).value;
        assert ParseUpTo(specs, argv, n) == ParseStep(argv, Names(specs), res, specs[n - 1]);
        StepOutcome(argv, Names(specs), res, specs[n - 1]);
      }
    }
  }

  /** When the reduce over the first `n` options succeeds, it has an entry for exactly those of them that occur in argv. */
  lemma {:induction false} ParseUpToKeys(specs: seq<ArgSpec>, argv: seq<string>, n: nat)
    requires n <= |specs|
    requires ParseUpTo(specs, argv, n).Ok?
    ensures ParseUpTo(specs, argv, n).value.Keys == PresentNames(specs, argv, n)
  {
    if n > 0 {
      ParseUpToKeys(specs, argv, n - 1);
      var spec := specs[n - 1];
      assert PresentNames(specs, argv, n) ==
        PresentNames(specs, argv, n - 1) + (if spec.name in argv then {spec.name} else {});
    }
  }

  /** A successful step keeps every other entry and gives `spec`, when present, the tokens after its name. */
  lemma StepTokens(argv: seq<string>, names: seq<string>, res: Parsed, spec: ArgSpec)
    requires ParseStep(argv, names, res, spec).Ok?
    ensures var res' := ParseStep(argv, names, res, spec).value;
      && (forall k :: k in res && k != spec.name ==> k in res' && res'[k] == res[k])
      && (spec.name in argv ==> HasTokens(res', argv, spec))
  {
    var at := IndexOf(argv, spec.name);
    if at > -1 {
      CollectSubArgsMeaning(argv, names, spec, at, |spec.subArgs|);
    }
  }

  /**
   * When the option names are distinct and the reduce succeeds, every
   * option that occurs holds the tokens after its name's first occurrence.
   */
  lemma {:induction false} ParseUpToTokens(specs: seq<ArgSpec>, argv: seq<string>, n: nat)
    requires n <= |specs|
    requires ParseUpTo(specs, argv, n).Ok? && Distinct(Names(specs))
    ensures forall i :: 0 <= i < n && specs[i].name in argv ==> HasTokens(ParseUpTo(specs, argv, n).value, argv, specs[i])
  {
    if n > 0 {
      var names := Names(specs);
      var spec := specs[n - 1];
      assert ParseUpTo(specs, argv, n - 1).Ok?;
      var res := ParseUpTo(specs, argv, n - 1).value;
      assert ParseUpTo(specs, argv, n) == ParseStep(argv, names, res, spec);
      ParseUpToTokens(specs, argv, n - 1);
      StepTokens(argv, names, res, spec);
      var res' := ParseUpTo(specs, argv, n).value;
      forall i | 0 <= i < n - 1 && specs[i].name in argv
        ensures HasTokens(res', argv, specs[i])
      {
        assert names[i] != names[n - 1];
      }
    }
  }

  lemma {:induction false} CollectErrorSticks(argv: seq<string>, names: seq<string>, spec: ArgSpec, at: nat, m: nat, n: nat)
    requires m <= n <= |spec.subArgs|
    requires CollectSubArgs(argv, names, spec, at, m).Err?
    ensures CollectSubArgs(argv, names, spec, at, n) == CollectSubArgs(argv, names, spec, at, m)
  {
    if m < n {
      CollectErrorSticks(argv, names, spec, at, m, n - 1);
    }
  }

  lemma {:induction false} ParseErrorSticks(specs: seq<ArgSpec>, argv: seq<string>, m: nat, n: nat)
    requires m <= n <= |specs|
    requires ParseUpTo(specs, argv, m).Err?
    ensures ParseUpTo(specs, argv, n) == ParseUpTo(specs, argv, m)
  {
    if m < n {
      ParseErrorSticks(specs, argv, m, n - 1);
    }
  }

  /**
   * The `forEach` over `spec`'s sub-arguments, its name standing at position
   * `at`: each slot must hold a token that is not a known option name.
   */
  method CollectArgs(argv: seq<string>, names: seq<string>, spec: ArgSpec, at: nat) returns (r: Result<seq<string>, Exit>)
    ensures r == CollectSubArgs(argv, names, spec, at, |spec.subArgs|)
  {
    var args: seq<string> := [];
    var k := 0;
    while k < |spec.subArgs|
      invariant 0 <= k <= |spec.subArgs|
      invariant CollectSubArgs(argv, names, spec, at, k) == Ok(args)
    {
      var j := at + k + 1;
      if |argv| <= j || IndexOf(names, argv[j]) > -1 {
        CollectErrorSticks(argv, names, spec, at, k + 1, |spec.subArgs|);
        return Err(MissingSubArg(spec, k));
      }
      args := args + [argv[j]];
      k := k + 1;
    }
    r := Ok(args);
  }

  /**
   * `parseArguments`: a reduce over the known options; each option found in
   * argv gets an entry with its sub-arguments, and the first missing
   * sub-argument ends the process (exit code 16).
   */
  method ParseArguments(specs: seq<ArgSpec>, argv: seq<string>) returns (r: Result<Parsed, Exit>)
    ensures r == Parse(specs, argv)
  {
    var names := Names(specs);
    var res: Parsed := map[];
    var i := 0;
    while i < |specs|
      invariant 0 <= i <= |specs|
      invariant ParseUpTo(specs, argv, i) == Ok(res)
    {
      var spec := specs[i];
      var at := IndexOf(argv, spec.name);
      if at > -1 {
        var args := CollectArgs(argv, names, spec, at);
        if args.Err? {
          ParseErrorSticks(specs, argv, i + 1, |specs|);
          return Err(args.error);
        }
        res := res[spec.name := args.value];
      }
      i := i + 1;
    }
    r := Ok(res);
  }
}
