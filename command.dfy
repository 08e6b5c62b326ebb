/** The command framework of the command line (multipacks.cli.api.Command).

    A command declares positional arguments, options and subcommands; in the program they are
    found by reflection over annotated fields and methods, here they are handed to the
    constructor as the declarations that scan would find. On first use `Build` sorts the
    arguments, checks the rules on optional arguments and caches the result. `Execute` runs a
    cursor over the tokens of a `Parameters` object: it scans options, binds arguments in sorted
    order, calls the `onExecute` hook, dispatches to a subcommand and calls `postExecute`.

    What a command does with its values is user code. The model records every call into it,
    in order, as an `Effect`: an option or argument setter receiving its raw string, or one of
    the two hooks. */
module CliApi {
  import opened Wrappers
  import opened Text

  // ---------------------------------------------------------------------------------------
  // Declarations

  /** What an @Argument or @Option annotation is attached to. */
  datatype MemberKind = Field | Method

  /** An @Argument: its sort key `value()`, whether it is optional, and the annotated member. */
  datatype ArgumentDecl = ArgumentDecl(index: int, optional: bool, member: string, kind: MemberKind)

  datatype BuildError =
    | OptionalWithSubcommands                // "No optional arguments are allowed when ..."
    | RequiredAfterOptional(index: int)      // "Argument #n is required, but there's ..."

  datatype CommandError =
    | BuildFailed(cause: BuildError)
    | OptionWithoutValue(token: string)      // a known option written without '='
    | ArgumentRequired(index: int)           // "Argument #n is required"
    | SubcommandNotFound(name: string)       // "Subcommand '...' not found"

  datatype HookKind = OnExecute | PostExecute

  /** One call from the framework into a command's own code. */
  datatype Effect =
    | SetOption(owner: Command, member: string, value: string)
    | SetArgument(owner: Command, argument: ArgumentDecl, value: string)
    | Hook(owner: Command, hook: HookKind)

  // ---------------------------------------------------------------------------------------
  // Sorting the arguments (Collections.sort by the declared index)

  predicate SortedByIndex(args: seq<ArgumentDecl>) {
    forall i, j :: 0 <= i < j < |args| ==> args[i].index <= args[j].index
  }

  /** A sorted list stays sorted under a new head that is not above any of its elements. */
  lemma ConsSorted(x: ArgumentDecl, rest: seq<ArgumentDecl>, tail: seq<ArgumentDecl>, a: ArgumentDecl)
    requires SortedByIndex(rest)
    requires multiset(rest) == multiset(tail) + multiset{a}
    requires x.index <= a.index && forall e :: e in tail ==> x.index <= e.index
    ensures SortedByIndex([x] + rest)
  {
    forall j | 0 <= j < |rest| ensures x.index <= rest[j].index {
      assert rest[j] in multiset(rest);
      if rest[j] != a {
        assert rest[j] in multiset(tail);
      }
    }
    assert forall j :: 1 <= j < |[x] + rest| ==> ([x] + rest)[j] == rest[j - 1];
  }

  /** In a sorted list the head is not above any later element. */
  lemma HeadBelowTail(sorted: seq<ArgumentDecl>)
    requires SortedByIndex(sorted) && sorted != []
    ensures forall e :: e in sorted[1..] ==> sorted[0].index <= e.index
  {
    forall e | e in sorted[1..] ensures sorted[0].index <= e.index {
      var j :| 0 <= j < |sorted[1..]| && sorted[1..][j] == e;
      assert sorted[j + 1] == e;
    }
  }

  /** A sorted list stays sorted under a new head not above its first element. */
  lemma PrependSorted(a: ArgumentDecl, sorted: seq<ArgumentDecl>)
    requires SortedByIndex(sorted)
    requires sorted == [] || a.index <= sorted[0].index
    ensures SortedByIndex([a] + sorted)
  {
    forall i, j | 0 <= i < j < |[a] + sorted| ensures ([a] + sorted)[i].index <= ([a] + sorted)[j].index {
      if i == 0 {
        assert ([a] + sorted)[j] == sorted[j - 1];
        assert sorted[0].index <= sorted[j - 1].index;
      } else {
        assert ([a] + sorted)[i] == sorted[i - 1] && ([a] + sorted)[j] == sorted[j - 1];
      }
    }
  }

  function InsertByIndex(a: ArgumentDecl, sorted: seq<ArgumentDecl>): (r: seq<ArgumentDecl>)
    requires SortedByIndex(sorted)
    ensures SortedByIndex(r)
    ensures multiset(r) == multiset(sorted) + multiset{a}
  {
    if sorted == [] || a.index <= sorted[0].index then
      PrependSorted(a, sorted);
      [a] + sorted
    else
      var tail := sorted[1..];
      assert sorted == [sorted[0]] + tail;
      var rest := InsertByIndex(a, tail);
      HeadBelowTail(sorted);
      ConsSorted(sorted[0], rest, tail, a);
      assert multiset([sorted[0]] + rest) == multiset{sorted[0]} + multiset(rest);
      [sorted[0]] + rest
  }

  /** A stable insertion sort: arguments with equal indices keep their declaration order.
      The contract states the order and the permutation; it does not state stability. */
  function SortByIndex(args: seq<ArgumentDecl>): (r: seq<ArgumentDecl>)
    ensures SortedByIndex(r)
    ensures multiset(r) == multiset(args)
  {
    if args == [] then []
    else
      assert args == [args[0]] + args[1..];
      InsertByIndex(args[0], SortByIndex(args[1..]))
  }

  // ---------------------------------------------------------------------------------------
  // The rules `build` checks

  /** `hasOptionalArgs`: set by the scan over annotated FIELDS only; an optional argument
      declared on a method does not set it. */
  predicate HasOptionalFieldArgument(args: seq<ArgumentDecl>) {
    exists i :: 0 <= i < |args| && args[i].optional && args[i].kind == Field
  }

  /** The loop over the sorted arguments: the first required argument met after an optional
      one is rejected. `seenOptional` is `currentOptionalState`. */
  function CheckOrderFrom(args: seq<ArgumentDecl>, k: nat, seenOptional: bool): Outcome<BuildError>
    decreases |args| - k
  {
    if k >= |args| then Pass
    else if seenOptional && !args[k].optional then Fail(RequiredAfterOptional(args[k].index))
    else CheckOrderFrom(args, k + 1, seenOptional || args[k].optional)
  }

  function CheckOrder(args: seq<ArgumentDecl>): Outcome<BuildError> {
    CheckOrderFrom(args, 0, false)
  }

  /** The validation of `build` on the sorted arguments. */
  function CheckDeclarations(sorted: seq<ArgumentDecl>, hasOptional: bool, hasSubcommands: bool): Outcome<BuildError> {
    if !hasOptional then Pass
    else if hasSubcommands then Fail(OptionalWithSubcommands)
    else CheckOrder(sorted)
  }

  /** No required argument comes after an optional one. */
  predicate RequiredThenOptional(args: seq<ArgumentDecl>) {
    forall i, j :: 0 <= i < j < |args| && args[i].optional ==> args[j].optional
  }

  /** The position of the first optional argument at or after `k` (|args| if none). */
  function FirstOptional(args: seq<ArgumentDecl>, k: nat): (p: nat)
    decreases |args| - k
    ensures k <= p || p == |args|
    ensures p <= |args|
    ensures forall i :: k <= i < p ==> !args[i].optional
    ensures p < |args| ==> args[p].optional
  {
    if k >= |args| then |args|
    else if args[k].optional then k
    else FirstOptional(args, k + 1)
  }

  /** From `k` on, no required argument follows an optional one, nor follows position `k`
      when an optional one was seen before it. */
  predicate OrderedFrom(args: seq<ArgumentDecl>, k: nat, seenOptional: bool) {
    && (seenOptional ==> forall j :: k <= j < |args| ==> args[j].optional)
    && (forall i, j :: k <= i < j < |args| && args[i].optional ==> args[j].optional)
  }

  /** The loop passes exactly when the rest of the list is ordered. */
  lemma {:induction false} CheckOrderFromPasses(args: seq<ArgumentDecl>, k: nat, seenOptional: bool)
    requires k <= |args|
    ensures CheckOrderFrom(args, k, seenOptional).Pass? <==> OrderedFrom(args, k, seenOptional)
    decreases |args| - k
  {
    if k == |args| {
      assert CheckOrderFrom(args, k, seenOptional) == Pass;
    } else if seenOptional && !args[k].optional {
      assert CheckOrderFrom(args, k, seenOptional).Fail?;
      assert !OrderedFrom(args, k, seenOptional);
    } else {
      var seen := seenOptional || args[k].optional;
      assert CheckOrderFrom(args, k, seenOptional) == CheckOrderFrom(args, k + 1, seen);
      CheckOrderFromPasses(args, k + 1, seen);
      if OrderedFrom(args, k + 1, seen) {
        forall i, j | k <= i < j < |args| && args[i].optional ensures args[j].optional {
          if i == k {
            assert seen;
          }
        }
        assert OrderedFrom(args, k, seenOptional);
      }
      if OrderedFrom(args, k, seenOptional) {
        if seen && !seenOptional {
          forall j | k + 1 <= j < |args| ensures args[j].optional {
            assert args[k].optional;
          }
        }
        assert OrderedFrom(args, k + 1, seen);
      }
    }
  }

  /** When the loop fails it names a required argument `j` after the first optional one `p`
      (position `k` itself when an optional one was seen before), with only optional ones
      between them. */
  lemma {:induction false} CheckOrderFromFails(args: seq<ArgumentDecl>, k: nat, seenOptional: bool)
    requires k <= |args|
    requires CheckOrderFrom(args, k, seenOptional).Fail?
    ensures var p := if seenOptional then k else FirstOptional(args, k);
      exists j :: p <= j < |args| && !args[j].optional &&
        (forall m :: p <= m < j ==> args[m].optional) &&
        CheckOrderFrom(args, k, seenOptional) == Fail(RequiredAfterOptional(args[j].index))
    decreases |args| - k
  {
    if seenOptional && !args[k].optional {
      assert CheckOrderFrom(args, k, seenOptional) == Fail(RequiredAfterOptional(args[k].index));
    } else {
      var seen := seenOptional || args[k].optional;
      assert CheckOrderFrom(args, k, seenOptional) == CheckOrderFrom(args, k + 1, seen);
      CheckOrderFromFails(args, k + 1, seen);
      var q := if seen then k + 1 else FirstOptional(args, k + 1);
      var j :| q <= j < |args| && !args[j].optional &&
        (forall m :: q <= m < j ==> args[m].optional) &&
        CheckOrderFrom(args, k + 1, seen) == Fail(RequiredAfterOptional(args[j].index));
      var p := if seenOptional then k else FirstOptional(args, k);
      if seen {
        assert p == k && args[k].optional;
        assert forall m :: p <= m < j ==> args[m].optional;
      } else {
        assert p == q;
      }
    }
  }

  /** `build` accepts exactly the argument lists in which no required argument follows an
      optional one. */
  lemma CheckOrderAccepts(args: seq<ArgumentDecl>)
    ensures CheckOrder(args).Pass? <==> RequiredThenOptional(args)
  {
    CheckOrderFromPasses(args, 0, false);
  }

  /** Otherwise it names the first required argument that follows the first optional one. */
  lemma CheckOrderRejects(args: seq<ArgumentDecl>)
    requires CheckOrder(args).Fail?
    ensures exists i, j ::
      && 0 <= i < j < |args| && args[i].optional && !args[j].optional
      && (forall m :: i <= m < j ==> args[m].optional)
      && (forall m :: 0 <= m < i ==> !args[m].optional)
      && CheckOrder(args) == Fail(RequiredAfterOptional(args[j].index))
  {
    CheckOrderFromFails(args, 0, false);
    var p := FirstOptional(args, 0);
    var j :| p <= j < |args| && !args[j].optional &&
      (forall m :: p <= m < j ==> args[m].optional) &&
      CheckOrder(args) == Fail(RequiredAfterOptional(args[j].index));
    assert args[p].optional;
    assert p < j;
  }

  predicate RequiredBefore(args: seq<ArgumentDecl>, p: nat) {
    p <= |args| && forall i :: 0 <= i < p ==> !args[i].optional
  }

  predicate OptionalFrom(args: seq<ArgumentDecl>, p: nat) {
    forall i :: p <= i < |args| ==> args[i].optional
  }

  /** Such lists are a run of required arguments followed by a run of optional ones. */
  lemma RequiredThenOptionalSplits(args: seq<ArgumentDecl>)
    ensures RequiredThenOptional(args) <==> exists p: nat :: RequiredBefore(args, p) && OptionalFrom(args, p)
  {
    if RequiredThenOptional(args) {
      var p := FirstOptional(args, 0);
      forall i | p <= i < |args| ensures args[i].optional {
        if i > p {
          assert args[p].optional;
        }
      }
      assert RequiredBefore(args, p) && OptionalFrom(args, p);
    }
    if exists p: nat :: RequiredBefore(args, p) && OptionalFrom(args, p) {
      var q: nat :| RequiredBefore(args, q) && OptionalFrom(args, q);
      forall i, j | 0 <= i < j < |args| && args[i].optional ensures args[j].optional {
        assert i >= q;
      }
    }
  }

  /** The complete acceptance rule of `build`: an optional field argument forbids
      subcommands, and then the sorted list must be required arguments followed by optional
      ones. */
  lemma CheckDeclarationsAccepts(decls: seq<ArgumentDecl>, hasSubcommands: bool)
    ensures CheckDeclarations(SortByIndex(decls), HasOptionalFieldArgument(decls), hasSubcommands).Pass? <==>
      !HasOptionalFieldArgument(decls) || (!hasSubcommands && RequiredThenOptional(SortByIndex(decls)))
    ensures HasOptionalFieldArgument(decls) && hasSubcommands ==>
      CheckDeclarations(SortByIndex(decls), HasOptionalFieldArgument(decls), hasSubcommands) == Fail(OptionalWithSubcommands)
  {
    CheckOrderAccepts(SortByIndex(decls));
  }

  /** The rule is stated for all optional arguments but only optional FIELD arguments trigger
      it: a single optional argument declared on a method passes beside a subcommand. */
  lemma MethodOptionalEscapesCheck(member: string)
    ensures CheckDeclarations(SortByIndex([ArgumentDecl(0, true, member, Method)]),
                              HasOptionalFieldArgument([ArgumentDecl(0, true, member, Method)]), true) == Pass
  {
  }

  /** Once some field argument is optional the order loop runs over every sorted argument,
      so an optional argument of either kind, method ones included, before a required one
      makes `build` fail. */
  lemma MethodOptionalCheckedBesideField(decls: seq<ArgumentDecl>, i: nat, j: nat)
    requires HasOptionalFieldArgument(decls)
    requires var sorted := SortByIndex(decls); i < j < |sorted| && sorted[i].optional && !sorted[j].optional
    ensures CheckDeclarations(SortByIndex(decls), HasOptionalFieldArgument(decls), false).Fail?
  {
    CheckOrderAccepts(SortByIndex(decls));
  }

  // ---------------------------------------------------------------------------------------
  // Scanning options (checkOptions)

  /** A token split at its first '=' (String.split("=", 2)): `value` is `None` when the token
      holds no '='. */
  datatype OptionToken = OptionToken(name: string, value: Option<string>)

  function SplitOption(token: string): (r: OptionToken)
    ensures r.value.None? ==> r.name == token && '=' !in token
    ensures r.value.Some? ==> token == r.name + "=" + r.value.value && '=' !in r.name
  {
    if token == [] then OptionToken([], None)
    else if token[0] == '=' then OptionToken([], Some(token[1..]))
    else
      var rest := SplitOption(token[1..]);
      assert token == [token[0]] + token[1..];
      OptionToken([token[0]] + rest.name, rest.value)
  }

  /** Where a step of execution left the cursor, the calls it made, and the error that ended
      it, if any. */
  datatype Step = Step(error: Option<CommandError>, cursor: nat, effects: seq<Effect>)

  function ToOutcome(error: Option<CommandError>): Outcome<CommandError> {
    if error.Some? then Fail(error.value) else Pass
  }

  predicate IsDashToken(tokens: seq<string>, i: nat) {
    i < |tokens| && StartsWith(tokens[i], "-")
  }

  /** checkOptions: consumes tokens while they start with '-'. A token whose name (the part
      before the first '=') is not a declared option is consumed and ends the scan; a declared
      one without '=' fails; otherwise its setter receives the part after the '='. */
  function ScanOptions(owner: Command, options: map<string, string>, tokens: seq<string>, i: nat): (r: Step)
    decreases |tokens| - i
    ensures r.cursor == i || i < r.cursor <= |tokens|
    ensures |r.effects| + i <= r.cursor
    ensures r.error.Some? ==> r.error.value.OptionWithoutValue?
  {
    if !IsDashToken(tokens, i) then Step(None, i, [])
    else
      var split := SplitOption(tokens[i]);
      if split.name !in options then Step(None, i + 1, [])
      else if split.value.None? then Step(Some(OptionWithoutValue(tokens[i])), i + 1, [])
      else
        var rest := ScanOptions(owner, options, tokens, i + 1);
        Step(rest.error, rest.cursor, [SetOption(owner, options[split.name], split.value.value)] + rest.effects)
  }

  /** The setter call a token makes when it names a declared option and holds a '='. */
  function OptionEffect(owner: Command, options: map<string, string>, token: string): Option<Effect> {
    var split := SplitOption(token);
    if split.name in options && split.value.Some? then Some(SetOption(owner, options[split.name], split.value.value))
    else None
  }

  /** A scan that continues after the effects `before`. */
  function ResumeScan(before: seq<Effect>, s: Step): Step {
    Step(s.error, s.cursor, before + s.effects)
  }

  /** One token of the option scan, seen from the effects `before` of the earlier ones. */
  lemma ScanOptionsStep(owner: Command, options: map<string, string>, tokens: seq<string>, i: nat,
                        before: seq<Effect>)
    requires IsDashToken(tokens, i)
    ensures var split := SplitOption(tokens[i]);
      ResumeScan(before, ScanOptions(owner, options, tokens, i)) ==
        if split.name !in options then Step(None, i + 1, before)
        else if split.value.None? then Step(Some(OptionWithoutValue(tokens[i])), i + 1, before)
        else ResumeScan(before + [SetOption(owner, options[split.name], split.value.value)],
                        ScanOptions(owner, options, tokens, i + 1))
  {
    var split := SplitOption(tokens[i]);
    if split.name in options && split.value.Some? {
      var e := SetOption(owner, options[split.name], split.value.value);
      var rest := ScanOptions(owner, options, tokens, i + 1);
      assert before + ([e] + rest.effects) == before + [e] + rest.effects;
    } else {
      assert before + [] == before;
    }
  }

  /** The scan stops without effect at a token that is not a dash token. */
  lemma ScanOptionsEnd(owner: Command, options: map<string, string>, tokens: seq<string>, i: nat,
                       before: seq<Effect>)
    requires !IsDashToken(tokens, i)
    ensures ResumeScan(before, ScanOptions(owner, options, tokens, i)) == Step(None, i, before)
  {
    assert before + [] == before;
  }

  /** What one option scan consumes: only dash tokens; it ends at a token that is not a dash
      token or at the end of the tokens, after an undeclared option, or with an error for a
      declared option without '='. Every other token it consumes sets an option. */
  lemma {:induction false} ScanOptionsStops(owner: Command, options: map<string, string>, tokens: seq<string>, i: nat)
    requires i <= |tokens|
    ensures var r := ScanOptions(owner, options, tokens, i);
      && (forall k :: i <= k < r.cursor ==> StartsWith(tokens[k], "-"))
      && (r.error.None? ==>
            || (|r.effects| == r.cursor - i && !IsDashToken(tokens, r.cursor))
            || (|r.effects| == r.cursor - i - 1 && SplitOption(tokens[r.cursor - 1]).name !in options))
      && (r.error.Some? ==>
            && |r.effects| == r.cursor - i - 1
            && r.error.value == OptionWithoutValue(tokens[r.cursor - 1])
            && SplitOption(tokens[r.cursor - 1]).name in options && '=' !in tokens[r.cursor - 1])
    decreases |tokens| - i
  {
    if IsDashToken(tokens, i) {
      var split := SplitOption(tokens[i]);
      if split.name !in options {
        assert ScanOptions(owner, options, tokens, i) == Step(None, i + 1, []);
      } else if split.value.None? {
        assert ScanOptions(owner, options, tokens, i) == Step(Some(OptionWithoutValue(tokens[i])), i + 1, []);
      } else {
        var rest := ScanOptions(owner, options, tokens, i + 1);
        assert ScanOptions(owner, options, tokens, i) ==
          Step(rest.error, rest.cursor, [SetOption(owner, options[split.name], split.value.value)] + rest.effects);
        ScanOptionsStops(owner, options, tokens, i + 1);
      }
    } else {
      assert ScanOptions(owner, options, tokens, i) == Step(None, i, []);
    }
  }

  /** The options a scan sets: the `k`-th setter call is the one the `k`-th consumed token
      names, so options are set in token order. */
  lemma ScanOptionsSets(owner: Command, options: map<string, string>, tokens: seq<string>, i: nat)
    ensures var r := ScanOptions(owner, options, tokens, i);
      forall k :: 0 <= k < |r.effects| ==>
        OptionEffect(owner, options, tokens[i + k]) == Some(r.effects[k])
  {
    var r := ScanOptions(owner, options, tokens, i);
    forall k | 0 <= k < |r.effects|
      ensures OptionEffect(owner, options, tokens[i + k]) == Some(r.effects[k])
    {
      ScanOptionSetAt(owner, options, tokens, i, k);
    }
  }

  lemma {:induction false} ScanOptionSetAt(owner: Command, options: map<string, string>, tokens: seq<string>,
                                           i: nat, k: nat)
    requires k < |ScanOptions(owner, options, tokens, i).effects|
    ensures i + k < |tokens|
    ensures OptionEffect(owner, options, tokens[i + k]) == Some(ScanOptions(owner, options, tokens, i).effects[k])
    decreases k
  {
    var r := ScanOptions(owner, options, tokens, i);
    assert IsDashToken(tokens, i);
    var split := SplitOption(tokens[i]);
    assert split.name in options && split.value.Some?;
    var rest := ScanOptions(owner, options, tokens, i + 1);
    assert r.effects == [SetOption(owner, options[split.name], split.value.value)] + rest.effects;
    if k > 0 {
      ScanOptionSetAt(owner, options, tokens, i + 1, k - 1);
      assert r.effects[k] == rest.effects[k - 1];
    }
  }

  // ---------------------------------------------------------------------------------------
  // Binding arguments (the loop over `arguments` in `execute`)

  /** The outcome of binding arguments: like a `Step`, plus `next`, the position of the first
      argument left unbound (the loop index at which the argument loop ended). */
  datatype Binding = Binding(error: Option<CommandError>, cursor: nat, effects: seq<Effect>, next: nat)

  /** The outcome of one pass of the argument loop: like a `Step`, plus whether the argument
      was bound (and the loop goes on). */
  datatype ArgumentStep = ArgumentStep(error: Option<CommandError>, cursor: nat, effects: seq<Effect>, bound: bool)

  /** One pass of the argument loop for `arg` from cursor `i`: the options are scanned; an
      option error ends the loop; at the end of the tokens an optional argument ends it
      without error and a required one fails; otherwise the argument's setter receives the
      current token, which is consumed. The pass binds `arg` and nothing else, to the last
      token it consumes, exactly when it goes on. */
  function BindStep(owner: Command, options: map<string, string>, arg: ArgumentDecl,
                    tokens: seq<string>, i: nat): (r: ArgumentStep)
    ensures r.cursor == i || i < r.cursor <= |tokens|
    ensures r.bound ==> r.error.None? && i < r.cursor
    ensures BoundArguments(r.effects) == if r.bound then [arg] else []
    ensures BoundValues(r.effects) == if r.bound then [tokens[r.cursor - 1]] else []
    ensures !r.bound && r.error.None? ==> arg.optional && r.cursor >= |tokens|
    ensures !r.bound && r.error.Some? ==>
              || r.error.value.OptionWithoutValue?
              || (!arg.optional && r.cursor >= |tokens| && r.error.value == ArgumentRequired(arg.index))
  {
    var s := ScanOptions(owner, options, tokens, i);
    ScanBindsNothing(owner, options, tokens, i);
    if s.error.Some? then ArgumentStep(s.error, s.cursor, s.effects, false)
    else if s.cursor >= |tokens| then
      ArgumentStep(if arg.optional then None else Some(ArgumentRequired(arg.index)), s.cursor, s.effects, false)
    else
      var bind := SetArgument(owner, arg, tokens[s.cursor]);
      BindStepBound(s.effects, bind);
      ArgumentStep(None, s.cursor + 1, s.effects + [bind], true)
  }

  /** Binds `args[k..]`, one pass of the argument loop per argument, until a pass does not
      go on. The bound arguments are always the run `args[k..next]`, each with one value.
      When binding stops before the last argument without an option error, the tokens are
      used up, and either the next argument is optional (no error) or it is required and the
      error names its index. */
  function BindArguments(owner: Command, options: map<string, string>, args: seq<ArgumentDecl>, k: nat,
                         tokens: seq<string>, i: nat): (r: Binding)
    requires k <= |args|
    decreases |args| - k
    ensures r.cursor == i || i < r.cursor <= |tokens|
    ensures k <= r.next <= |args|
    ensures BoundArguments(r.effects) == args[k..r.next]
    ensures |BoundValues(r.effects)| == r.next - k
    ensures r.error.None? && r.next < |args| ==> args[r.next].optional && r.cursor >= |tokens|
    ensures r.error.Some? ==>
              || r.error.value.OptionWithoutValue?
              || (&& r.next < |args| && !args[r.next].optional && r.cursor >= |tokens|
                  && r.error.value == ArgumentRequired(args[r.next].index))
  {
    if k == |args| then Binding(None, i, [], k)
    else
      var st := BindStep(owner, options, args[k], tokens, i);
      if !st.bound then
        EmptySlice(args, k);
        Binding(st.error, st.cursor, st.effects, k)
      else
        var rest := BindArguments(owner, options, args, k + 1, tokens, st.cursor);
        BoundConcat(st.effects, rest.effects);
        SliceHead(args, k, rest.next);
        Binding(rest.error, rest.cursor, st.effects + rest.effects, rest.next)
  }

  /** A binding that continues after the effects `before`. */
  function Resume(before: seq<Effect>, b: Binding): Binding {
    Binding(b.error, b.cursor, before + b.effects, b.next)
  }

  /** `BindArguments` at an argument left to bind, one pass unfolded. */
  lemma BindArgumentsUnfold(owner: Command, options: map<string, string>, args: seq<ArgumentDecl>, k: nat,
                            tokens: seq<string>, i: nat)
    requires k < |args|
    ensures var st := BindStep(owner, options, args[k], tokens, i);
      BindArguments(owner, options, args, k, tokens, i) ==
        if st.bound then
          var rest := BindArguments(owner, options, args, k + 1, tokens, st.cursor);
          Binding(rest.error, rest.cursor, st.effects + rest.effects, rest.next)
        else Binding(st.error, st.cursor, st.effects, k)
  {
  }

  /** One pass of the argument loop, seen from the effects `before` of the earlier passes. */
  lemma BindArgumentsStep(owner: Command, options: map<string, string>, args: seq<ArgumentDecl>, k: nat,
                          tokens: seq<string>, i: nat, before: seq<Effect>)
    requires k < |args|
    ensures var st := BindStep(owner, options, args[k], tokens, i);
      Resume(before, BindArguments(owner, options, args, k, tokens, i)) ==
        if st.bound then Resume(before + st.effects, BindArguments(owner, options, args, k + 1, tokens, st.cursor))
        else Binding(st.error, st.cursor, before + st.effects, k)
  {
    var st := BindStep(owner, options, args[k], tokens, i);
    BindArgumentsUnfold(owner, options, args, k, tokens, i);
    if st.bound {
      ResumeShift(before, st.effects, BindArguments(owner, options, args, k + 1, tokens, st.cursor));
    }
  }

  /** Effects `e` at the front of a binding may as well be moved into what came before. */
  lemma ResumeShift(before: seq<Effect>, e: seq<Effect>, b: Binding)
    ensures Resume(before, Binding(b.error, b.cursor, e + b.effects, b.next)) == Resume(before + e, b)
  {
    assert before + (e + b.effects) == before + e + b.effects;
  }

  /** The bound arguments and values of a pass that binds: nothing from the option scan, then
      the argument itself. */
  lemma BindStepBound(scan: seq<Effect>, bind: Effect)
    requires bind.SetArgument?
    requires BoundArguments(scan) == [] && BoundValues(scan) == []
    ensures BoundArguments(scan + [bind]) == [bind.argument]
    ensures BoundValues(scan + [bind]) == [bind.value]
  {
    assert BoundArguments([bind]) == [bind.argument];
    assert BoundValues([bind]) == [bind.value];
    BoundConcat(scan, [bind]);
  }

  /** The arguments bound by a sequence of effects, in order. */
  function BoundArguments(effects: seq<Effect>): seq<ArgumentDecl> {
    if effects == [] then []
    else (if effects[0].SetArgument? then [effects[0].argument] else []) + BoundArguments(effects[1..])
  }

  /** The strings given to argument setters by a sequence of effects, in order. */
  function BoundValues(effects: seq<Effect>): seq<string> {
    if effects == [] then []
    else (if effects[0].SetArgument? then [effects[0].value] else []) + BoundValues(effects[1..])
  }

  lemma BoundConcat(a: seq<Effect>, b: seq<Effect>)
    ensures BoundArguments(a + b) == BoundArguments(a) + BoundArguments(b)
    ensures BoundValues(a + b) == BoundValues(a) + BoundValues(b)
  {
    BoundArgumentsConcat(a, b);
    BoundValuesConcat(a, b);
  }

  lemma {:induction false} BoundArgumentsConcat(a: seq<Effect>, b: seq<Effect>)
    ensures BoundArguments(a + b) == BoundArguments(a) + BoundArguments(b)
  {
    if a == [] {
      assert a + b == b;
    } else {
      var head := if a[0].SetArgument? then [a[0].argument] else [];
      assert (a + b)[0] == a[0];
      assert (a + b)[1..] == a[1..] + b;
      assert BoundArguments(a + b) == head + BoundArguments(a[1..] + b);
      assert BoundArguments(a) == head + BoundArguments(a[1..]);
      BoundArgumentsConcat(a[1..], b);
    }
  }

  lemma {:induction false} BoundValuesConcat(a: seq<Effect>, b: seq<Effect>)
    ensures BoundValues(a + b) == BoundValues(a) + BoundValues(b)
  {
    if a == [] {
      assert a + b == b;
    } else {
      var head := if a[0].SetArgument? then [a[0].value] else [];
      assert (a + b)[0] == a[0];
      assert (a + b)[1..] == a[1..] + b;
      assert BoundValues(a + b) == head + BoundValues(a[1..] + b);
      assert BoundValues(a) == head + BoundValues(a[1..]);
      BoundValuesConcat(a[1..], b);
    }
  }

  lemma {:induction false} ScanBindsNothing(owner: Command, options: map<string, string>, tokens: seq<string>, i: nat)
    ensures BoundArguments(ScanOptions(owner, options, tokens, i).effects) == []
    ensures BoundValues(ScanOptions(owner, options, tokens, i).effects) == []
    decreases |tokens| - i
  {
    if IsDashToken(tokens, i) {
      var split := SplitOption(tokens[i]);
      if split.name in options && split.value.Some? {
        var rest := ScanOptions(owner, options, tokens, i + 1);
        ScanBindsNothing(owner, options, tokens, i + 1);
        BoundConcat([SetOption(owner, options[split.name], split.value.value)], rest.effects);
      }
    }
  }

  /** No dash tokens from `i` on. */
  predicate NoDashFrom(tokens: seq<string>, i: nat) {
    forall j :: i <= j < |tokens| ==> !StartsWith(tokens[j], "-")
  }

  /** Without dash tokens every bound argument consumes exactly one token: the bound values
      are the next tokens, in order, and the cursor moves past exactly those. Binding fails
      exactly when a required argument finds no token left. */
  lemma {:induction false} BindWithoutOptions(owner: Command, options: map<string, string>, args: seq<ArgumentDecl>,
                                              k: nat, tokens: seq<string>, i: nat)
    requires k <= |args| && i <= |tokens|
    requires NoDashFrom(tokens, i)
    ensures var r := BindArguments(owner, options, args, k, tokens, i);
      && r.next - k == (if |args| - k <= |tokens| - i then |args| - k else |tokens| - i)
      && r.cursor == i + (r.next - k)
      && BoundValues(r.effects) == tokens[i..r.cursor]
      && (r.error.Some? ==> r.error.value.ArgumentRequired?)
      && (r.error.None? <==> (r.next == |args| || args[r.next].optional))
    decreases |args| - k
  {
    var r := BindArguments(owner, options, args, k, tokens, i);
    assert ScanOptions(owner, options, tokens, i) == Step(None, i, []);
    if k == |args| {
      assert r == Binding(None, i, [], k);
    } else if i < |tokens| {
      var st := BindStep(owner, options, args[k], tokens, i);
      assert st.bound && st.cursor == i + 1;
      var rest := BindArguments(owner, options, args, k + 1, tokens, i + 1);
      assert r == Binding(rest.error, rest.cursor, st.effects + rest.effects, rest.next);
      BoundConcat(st.effects, rest.effects);
      BindWithoutOptions(owner, options, args, k + 1, tokens, i + 1);
      SliceHead(tokens, i, rest.cursor);
    } else {
      assert tokens[i..i] == [];
    }
  }

  /** Setter calls on `owner` only, no hooks. */
  predicate SettersOf(owner: Command, effects: seq<Effect>) {
    forall k :: 0 <= k < |effects| ==> !effects[k].Hook? && effects[k].owner == owner
  }

  lemma SettersConcat(owner: Command, a: seq<Effect>, b: seq<Effect>)
    requires SettersOf(owner, a) && SettersOf(owner, b)
    ensures SettersOf(owner, a + b)
  {
    forall k | 0 <= k < |a + b| ensures !(a + b)[k].Hook? && (a + b)[k].owner == owner {
      if k < |a| {
        assert (a + b)[k] == a[k];
      } else {
        assert (a + b)[k] == b[k - |a|];
      }
    }
  }

  /** The option scan only calls setters of its own command. */
  lemma {:induction false} ScanCallsSetters(owner: Command, options: map<string, string>, tokens: seq<string>, i: nat)
    ensures SettersOf(owner, ScanOptions(owner, options, tokens, i).effects)
    decreases |tokens| - i
  {
    if IsDashToken(tokens, i) {
      var split := SplitOption(tokens[i]);
      if split.name in options && split.value.Some? {
        ScanCallsSetters(owner, options, tokens, i + 1);
        SettersConcat(owner, [SetOption(owner, options[split.name], split.value.value)],
                      ScanOptions(owner, options, tokens, i + 1).effects);
      }
    }
  }

  /** One pass of the argument loop only calls setters of its own command. */
  lemma BindStepCallsSetters(owner: Command, options: map<string, string>, arg: ArgumentDecl,
                             tokens: seq<string>, i: nat)
    ensures SettersOf(owner, BindStep(owner, options, arg, tokens, i).effects)
  {
    var s := ScanOptions(owner, options, tokens, i);
    ScanCallsSetters(owner, options, tokens, i);
    if s.error.None? && s.cursor < |tokens| {
      SettersConcat(owner, s.effects, [SetArgument(owner, arg, tokens[s.cursor])]);
    }
  }

  /** Binding arguments only calls setters of its own command. */
  lemma {:induction false} BindCallsSetters(owner: Command, options: map<string, string>, args: seq<ArgumentDecl>,
                                            k: nat, tokens: seq<string>, i: nat)
    requires k <= |args|
    ensures SettersOf(owner, BindArguments(owner, options, args, k, tokens, i).effects)
    decreases |args| - k
  {
    if k < |args| {
      var st := BindStep(owner, options, args[k], tokens, i);
      BindStepCallsSetters(owner, options, args[k], tokens, i);
      if st.bound {
        var rest := BindArguments(owner, options, args, k + 1, tokens, st.cursor);
        BindCallsSetters(owner, options, args, k + 1, tokens, st.cursor);
        SettersConcat(owner, st.effects, rest.effects);
        assert BindArguments(owner, options, args, k, tokens, i).effects == st.effects + rest.effects;
      } else {
        assert BindArguments(owner, options, args, k, tokens, i).effects == st.effects;
      }
    } else {
      assert BindArguments(owner, options, args, k, tokens, i).effects == [];
    }
  }

  /** Effects whose owners all lie in `owners`. */
  predicate OwnedBy(effects: seq<Effect>, owners: set<Command>) {
    forall k :: 0 <= k < |effects| ==> effects[k].owner in owners
  }

  lemma OwnedConcat(a: seq<Effect>, b: seq<Effect>, owners: set<Command>)
    requires OwnedBy(a, owners) && OwnedBy(b, owners)
    ensures OwnedBy(a + b, owners)
  {
    forall k | 0 <= k < |a + b| ensures (a + b)[k].owner in owners {
      if k < |a| {
        assert (a + b)[k] == a[k];
      } else {
        assert (a + b)[k] == b[k - |a|];
      }
    }
  }

  lemma OwnedWiden(effects: seq<Effect>, owners: set<Command>, wider: set<Command>)
    requires OwnedBy(effects, owners) && owners <= wider
    ensures OwnedBy(effects, wider)
  {
  }

  lemma SettersOwned(owner: Command, effects: seq<Effect>, owners: set<Command>)
    requires SettersOf(owner, effects) && owner in owners
    ensures OwnedBy(effects, owners)
  {
  }

  lemma SettersNoHook(owner: Command, effects: seq<Effect>, hook: HookKind)
    requires SettersOf(owner, effects)
    ensures Hook(owner, hook) !in effects
  {
  }

  lemma OwnedExcludes(effects: seq<Effect>, owners: set<Command>, e: Effect)
    requires OwnedBy(effects, owners) && e.owner !in owners
    ensures e !in effects
  {
  }

  /** The pieces of `p + [h] + d`. */
  lemma RunHookSplit(p: seq<Effect>, h: Effect, d: seq<Effect>)
    ensures var r := p + [h] + d;
      && |r| == |p| + 1 + |d| && r[..|p|] == p && r[|p|] == h && r[|p| + 1..] == d
      && (|d| > 0 ==> r[|r| - 1] == d[|d| - 1] && r[|p| + 1..|r| - 1] == d[..|d| - 1])
      && (forall e :: e in r <==> e in p || e == h || e in d)
  {
  }

  /** The pieces of `p + [h] + d` when `d` ends with `post` and the rest of `d` is owned. */
  lemma HookOrderShape(p: seq<Effect>, h: Effect, d: seq<Effect>, post: Effect, owners: set<Command>)
    requires |d| > 0 && d[|d| - 1] == post && OwnedBy(d[..|d| - 1], owners)
    ensures var r := p + [h] + d;
      && |r| >= |p| + 2 && r[..|p|] == p && r[|p|] == h && r[|r| - 1] == post
      && OwnedBy(r[|p| + 1..|r| - 1], owners)
  {
    RunHookSplit(p, h, d);
  }

  lemma EmptySlice<T>(s: seq<T>, i: nat)
    requires i <= |s|
    ensures s[i..i] == []
  {
  }

  lemma SliceHead<T>(s: seq<T>, i: nat, j: nat)
    requires i < j <= |s|
    ensures s[i..j] == [s[i]] + s[i + 1..j]
  {
  }

  // ---------------------------------------------------------------------------------------
  // Parameters: the token sequence and its cursor

  class Parameters {
    const tokens: seq<string>
    var cursor: nat

    constructor (args: seq<string>)
      ensures tokens == args && cursor == 0
    {
      tokens := args;
      cursor := 0;
    }

    /** getCurrent: the token under the cursor, `None` for null at the end. */
    function Current(): (t: Option<string>)
      reads this
      ensures t.Some? <==> cursor < |tokens|
      ensures t.Some? ==> t.value == tokens[cursor]
    {
      if cursor < |tokens| then Some(tokens[cursor]) else None
    }

    predicate EndOfParams()
      reads this
    {
      cursor >= |tokens|
    }

    /** getThenAdvance: returns the current token and moves past it. */
    method GetThenAdvance() returns (t: Option<string>)
      modifies this
      ensures t == old(Current())
      ensures cursor == if old(cursor) < |tokens| then old(cursor) + 1 else old(cursor)
    {
      t := Current();
      if cursor < |tokens| {
        cursor := cursor + 1;
      }
    }
  }

  // ---------------------------------------------------------------------------------------
  // Commands

  class Command {
    /** The declarations the reflection scan finds: arguments in declaration order, option
        names mapped to the member they set, subcommand names mapped to the subcommand. */
    const declaredArguments: seq<ArgumentDecl>
    const declaredOptions: map<string, string>
    const declaredSubcommands: map<string, Command>

    /** Every command reachable through subcommands. */
    ghost const Descendants: set<Command>

    var isBuilt: bool
    var arguments: seq<ArgumentDecl>
    var options: map<string, string>
    var subcommands: map<string, Command>

    /** The commands reachable through the declared subcommands: each subcommand and every
        command it reaches. */
    ghost function Reachable(): set<Command> {
      (set n | n in declaredSubcommands :: declaredSubcommands[n])
        + (set n, d | n in declaredSubcommands && d in declaredSubcommands[n].Descendants :: d)
    }

    /** The subcommand structure is a finite tree or dag without cycles, and `Descendants` is
        exactly what the subcommands reach. */
    ghost predicate Acyclic()
      decreases Descendants
    {
      && Descendants == Reachable()
      && this !in Descendants
      && forall n :: n in declaredSubcommands ==>
        var c := declaredSubcommands[n];
        && c in Descendants
        && c.Descendants <= Descendants
        && c !in c.Descendants
        && c.Acyclic()
    }

    /** Once built, the caches hold what `build` computes from the declarations, and the
        declarations passed its checks. */
    ghost predicate Ready()
      reads this
    {
      isBuilt ==>
        && arguments == SortByIndex(declaredArguments)
        && options == declaredOptions
        && subcommands == declaredSubcommands
        && BuildCheck().Pass?
    }

    ghost predicate Valid()
      reads this, Descendants
    {
      && Acyclic()
      && Ready()
      && forall d :: d in Descendants ==> d.Ready()
    }

    /** What `build` decides for these declarations. */
    function BuildCheck(): Outcome<BuildError> {
      CheckDeclarations(SortByIndex(declaredArguments), HasOptionalFieldArgument(declaredArguments),
                        |declaredSubcommands| > 0)
    }

    constructor (args: seq<ArgumentDecl>, opts: map<string, string>, subs: map<string, Command>)
      requires forall n :: n in subs ==> subs[n].Valid()
      ensures Valid() && !isBuilt
      ensures declaredArguments == args && declaredOptions == opts && declaredSubcommands == subs
      ensures Descendants == (set n | n in subs :: subs[n]) + (set n, d | n in subs && d in subs[n].Descendants :: d)
    {
      declaredArguments := args;
      declaredOptions := opts;
      declaredSubcommands := subs;
      Descendants := (set n | n in subs :: subs[n]) + (set n, d | n in subs && d in subs[n].Descendants :: d);
      isBuilt := false;
      arguments := [];
      options := map[];
      subcommands := map[];
      new;
    }

    /** build: does nothing once built; otherwise fills the caches, then checks the rules and
        marks the command built only if they hold. */
    method Build() returns (outcome: Outcome<BuildError>)
      requires Ready()
      modifies this
      ensures Ready()
      ensures old(isBuilt) ==> outcome == Pass && unchanged(this)
      ensures !old(isBuilt) ==>
        && outcome == BuildCheck()
        && isBuilt == outcome.Pass?
        && arguments == SortByIndex(declaredArguments)
        && options == declaredOptions
        && subcommands == declaredSubcommands
    {
      if isBuilt {
        return Pass;
      }
      var hasOptionalArgs := HasOptionalFieldArgument(declaredArguments);
      options := declaredOptions;
      subcommands := declaredSubcommands;
      arguments := SortByIndex(declaredArguments);
      if hasOptionalArgs {
        if |subcommands| > 0 {
          return Fail(OptionalWithSubcommands);
        }
        var currentOptionalState := false;
        for k := 0 to |arguments|
          invariant CheckOrder(arguments) == CheckOrderFrom(arguments, k, currentOptionalState)
        {
          if currentOptionalState && !arguments[k].optional {
            return Fail(RequiredAfterOptional(arguments[k].index));
          }
          if arguments[k].optional {
            currentOptionalState := true;
          }
        }
      }
      isBuilt := true;
      return Pass;
    }

    /** checkOptions over this command's option cache. */
    method CheckOptions(params: Parameters) returns (outcome: Outcome<CommandError>, effects: seq<Effect>)
      modifies params
      ensures var s := ScanOptions(this, options, params.tokens, old(params.cursor));
        outcome == ToOutcome(s.error) && effects == s.effects && params.cursor == s.cursor
    {
      ghost var tokens := params.tokens;
      ghost var start := params.cursor;
      var opts := options;
      effects := [];
      while params.Current().Some? && StartsWith(params.Current().value, "-")
        invariant ScanOptions(this, opts, tokens, start) ==
          ResumeScan(effects, ScanOptions(this, opts, tokens, params.cursor))
        decreases |tokens| - params.cursor
      {
        ScanOptionsStep(this, opts, tokens, params.cursor, effects);
        var current := params.GetThenAdvance();
        var split := SplitOption(current.value);
        if split.name !in opts {
          return Pass, effects;
        }
        if split.value.None? {
          return Fail(OptionWithoutValue(current.value)), effects;
        }
        effects := effects + [SetOption(this, opts[split.name], split.value.value)];
      }
      ScanOptionsEnd(this, opts, tokens, params.cursor, effects);
      return Pass, effects;
    }

    /** The part of `execute` before `onExecute`, from cursor `i`: options, then the
        arguments in sorted order, then options again. */
    function Prepared(tokens: seq<string>, i: nat): Step {
      var s1 := ScanOptions(this, declaredOptions, tokens, i);
      if s1.error.Some? then s1
      else
        var s2 := BindArguments(this, declaredOptions, SortByIndex(declaredArguments), 0, tokens, s1.cursor);
        if s2.error.Some? then Step(s2.error, s2.cursor, s1.effects + s2.effects)
        else
          var s3 := ScanOptions(this, declaredOptions, tokens, s2.cursor);
          Step(s3.error, s3.cursor, s1.effects + s2.effects + s3.effects)
    }

    /** The whole run of `execute` from cursor `i`, as a function of the declarations. */
    ghost function Run(tokens: seq<string>, i: nat): Step
      requires Acyclic()
      decreases Descendants, 1
    {
      var built := BuildCheck();
      if built.Fail? then Step(Some(BuildFailed(built.error)), i, [])
      else
        var p := Prepared(tokens, i);
        if p.error.Some? then p
        else
          var d := Dispatched(tokens, p.cursor);
          Step(d.error, d.cursor, p.effects + [Hook(this, OnExecute)] + d.effects)
    }

    /** The part of `execute` after `onExecute`, from cursor `c`: hand the rest of the tokens
        to the subcommand the current token names, if there are tokens and subcommands; then
        `postExecute`, unless the subcommand failed. */
    ghost function Dispatched(tokens: seq<string>, c: nat): Step
      requires Acyclic()
      decreases Descendants, 0
    {
      if c < |tokens| && |declaredSubcommands| > 0 then
        if tokens[c] !in declaredSubcommands then Step(Some(SubcommandNotFound(tokens[c])), c, [])
        else
          var sub := declaredSubcommands[tokens[c]].Run(tokens, c + 1);
          if sub.error.Some? then sub
          else Step(None, sub.cursor, sub.effects + [Hook(this, PostExecute)])
      else Step(None, c, [Hook(this, PostExecute)])
    }

    /** The argument loop of `execute`: before each argument in sorted order the options are
        checked; at the end of the tokens an optional argument ends the loop and a required
        one fails; otherwise the argument takes the current token. */
    method BindDeclaredArguments(params: Parameters) returns (outcome: Outcome<CommandError>, effects: seq<Effect>)
      modifies params
      ensures var b := BindArguments(this, options, arguments, 0, params.tokens, old(params.cursor));
        outcome == ToOutcome(b.error) && effects == b.effects && params.cursor == b.cursor
    {
      ghost var tokens := params.tokens;
      ghost var start := params.cursor;
      ghost var opts := options;
      var args := arguments;
      effects := [];
      for k := 0 to |args|
        invariant options == opts
        invariant BindArguments(this, opts, args, 0, tokens, start) ==
          Resume(effects, BindArguments(this, opts, args, k, tokens, params.cursor))
      {
        BindArgumentsStep(this, opts, args, k, tokens, params.cursor, effects);
        var e, bound;
        outcome, e, bound := BindNext(params, args[k]);
        effects := effects + e;
        if !bound {
          return;
        }
      }
      return Pass, effects;
    }

    /** One pass of the argument loop of `execute` for `arg`. */
    method BindNext(params: Parameters, arg: ArgumentDecl)
      returns (outcome: Outcome<CommandError>, effects: seq<Effect>, bound: bool)
      modifies params
      ensures var st := BindStep(this, options, arg, params.tokens, old(params.cursor));
        && outcome == ToOutcome(st.error) && effects == st.effects && bound == st.bound
        && params.cursor == st.cursor
    {
      outcome, effects := CheckOptions(params);
      if outcome.Fail? {
        return outcome, effects, false;
      }
      if params.EndOfParams() {
        if arg.optional {
          return Pass, effects, false;
        }
        return Fail(ArgumentRequired(arg.index)), effects, false;
      }
      var t := params.GetThenAdvance();
      return Pass, effects + [SetArgument(this, arg, t.value)], true;
    }

    /** The part of `execute` between `build` and `onExecute`, on the build caches. */
    method Prepare(params: Parameters) returns (outcome: Outcome<CommandError>, effects: seq<Effect>)
      requires options == declaredOptions && arguments == SortByIndex(declaredArguments)
      modifies params
      ensures var p := Prepared(params.tokens, old(params.cursor));
        outcome == ToOutcome(p.error) && effects == p.effects && params.cursor == p.cursor
    {
      ghost var tokens := params.tokens;
      ghost var s1 := ScanOptions(this, declaredOptions, tokens, params.cursor);
      var e;
      outcome, e := CheckOptions(params);
      effects := e;
      if outcome.Fail? {
        return;
      }
      ghost var s2 := BindArguments(this, declaredOptions, SortByIndex(declaredArguments), 0, tokens, s1.cursor);
      outcome, e := BindDeclaredArguments(params);
      effects := effects + e;
      if outcome.Fail? {
        return;
      }
      outcome, e := CheckOptions(params);
      effects := effects + e;
    }

    /** execute(Parameters): behaves as `Run` from the current cursor; the only state it
        changes besides the cursor is the build caches of the commands it reaches. */
    method Execute(params: Parameters) returns (outcome: Outcome<CommandError>, effects: seq<Effect>)
      requires Valid()
      modifies this, Descendants, params
      ensures Valid()
      ensures isBuilt == (old(isBuilt) || BuildCheck().Pass?)
      ensures forall d :: d in Descendants && old(d.isBuilt) ==> d.isBuilt
      ensures var r := Run(params.tokens, old(params.cursor));
        outcome == ToOutcome(r.error) && effects == r.effects && params.cursor == r.cursor
      decreases Descendants, 2
    {
      var built := Build();
      if built.Fail? {
        return Fail(BuildFailed(built.error)), [];
      }
      outcome, effects := Prepare(params);
      if outcome.Fail? {
        return;
      }
      var e;
      label dispatching:
      assert forall d :: d in Descendants ==> old@dispatching(d.isBuilt) == old(d.isBuilt);
      outcome, e := Dispatch(params);
      effects := effects + [Hook(this, OnExecute)] + e;
    }

    /** The subcommand dispatch of `execute`, on the build caches. */
    method Dispatch(params: Parameters) returns (outcome: Outcome<CommandError>, effects: seq<Effect>)
      requires Valid() && isBuilt
      modifies Descendants, params
      ensures Valid()
      ensures forall d :: d in Descendants && old(d.isBuilt) ==> d.isBuilt
      ensures var d := Dispatched(params.tokens, old(params.cursor));
        outcome == ToOutcome(d.error) && effects == d.effects && params.cursor == d.cursor
      decreases Descendants, 1
    {
      if !params.EndOfParams() && |subcommands| > 0 {
        var name := params.Current().value;
        if name !in subcommands {
          return Fail(SubcommandNotFound(name)), [];
        }
        outcome, effects := Descend(params);
        if outcome.Fail? {
          return;
        }
      } else {
        effects := [];
      }
      effects := effects + [Hook(this, PostExecute)];
      outcome := Pass;
    }

    /** The subcommand the current token names consumes it and runs on the rest. */
    method Descend(params: Parameters) returns (outcome: Outcome<CommandError>, effects: seq<Effect>)
      requires Valid() && isBuilt
      requires params.cursor < |params.tokens| && params.tokens[params.cursor] in declaredSubcommands
      modifies Descendants, params
      ensures Valid()
      ensures forall d :: d in Descendants && old(d.isBuilt) ==> d.isBuilt
      ensures var r := declaredSubcommands[old(params.tokens[params.cursor])].Run(params.tokens, old(params.cursor) + 1);
        outcome == ToOutcome(r.error) && effects == r.effects && params.cursor == r.cursor
      decreases Descendants, 0
    {
      var subcommand := subcommands[params.Current().value];
      var _ := params.GetThenAdvance();
      SubcommandFrame(subcommand);
      outcome, effects := subcommand.Execute(params);
      forall d | d in Descendants && old(d.isBuilt) ensures d.isBuilt {
        if d == subcommand {
        } else if d in subcommand.Descendants {
        }
      }
    }

    /** A valid command is its whole frame: without subcommands it reaches nothing, and
        otherwise what it reaches is its subcommands and what they reach. */
    lemma DescendantsExact()
      requires Valid()
      ensures |declaredSubcommands| == 0 ==> Descendants == {}
      ensures forall n :: n in declaredSubcommands ==>
        declaredSubcommands[n] in Descendants && declaredSubcommands[n].Descendants <= Descendants
      ensures forall d :: d in Descendants ==>
        exists n :: n in declaredSubcommands && (d == declaredSubcommands[n] || d in declaredSubcommands[n].Descendants)
    {
    }

    /** What `Valid` gives about a subcommand: it is a descendant, valid itself, and what it
        reaches is reached from here, without this command among it. */
    lemma SubcommandFrame(c: Command)
      requires Valid() && c in declaredSubcommands.Values
      ensures c in Descendants && c.Descendants < Descendants && this !in c.Descendants + {c}
      ensures c.Valid()
    {
      var n :| n in declaredSubcommands && declaredSubcommands[n] == c;
    }

    /** Before `onExecute` the command only calls its own setters. */
    lemma PreparedCallsSetters(tokens: seq<string>, i: nat)
      ensures SettersOf(this, Prepared(tokens, i).effects)
    {
      var s1 := ScanOptions(this, declaredOptions, tokens, i);
      ScanCallsSetters(this, declaredOptions, tokens, i);
      if s1.error.None? {
        var s2 := BindArguments(this, declaredOptions, SortByIndex(declaredArguments), 0, tokens, s1.cursor);
        BindCallsSetters(this, declaredOptions, SortByIndex(declaredArguments), 0, tokens, s1.cursor);
        SettersConcat(this, s1.effects, s2.effects);
        if s2.error.None? {
          ScanCallsSetters(this, declaredOptions, tokens, s2.cursor);
          SettersConcat(this, s1.effects + s2.effects, ScanOptions(this, declaredOptions, tokens, s2.cursor).effects);
        }
      }
    }

    /** `Run` when the build passes and nothing fails before `onExecute`. */
    lemma RunUnfold(tokens: seq<string>, i: nat)
      requires Acyclic()
      requires BuildCheck().Pass? && Prepared(tokens, i).error.None?
      ensures var p := Prepared(tokens, i);
        var d := Dispatched(tokens, p.cursor);
        Run(tokens, i) == Step(d.error, d.cursor, p.effects + [Hook(this, OnExecute)] + d.effects)
    {
    }

    /** Every effect of a run belongs to this command or to a command it reaches. */
    lemma {:induction false} RunOwned(tokens: seq<string>, i: nat)
      requires Acyclic()
      ensures OwnedBy(Run(tokens, i).effects, {this} + Descendants)
      decreases Descendants, 1
    {
      var owners := {this} + Descendants;
      if BuildCheck().Fail? {
        assert Run(tokens, i).effects == [];
      } else {
        var p := Prepared(tokens, i);
        PreparedCallsSetters(tokens, i);
        SettersOwned(this, p.effects, owners);
        if p.error.Some? {
          assert Run(tokens, i) == p;
        } else {
          var d := Dispatched(tokens, p.cursor);
          RunUnfold(tokens, i);
          DispatchedOwned(tokens, p.cursor);
          OwnedConcat(p.effects, [Hook(this, OnExecute)], owners);
          OwnedConcat(p.effects + [Hook(this, OnExecute)], d.effects, owners);
        }
      }
    }

    /** After `onExecute` only commands reached from here act, and then, on success, this
        command's `postExecute`, last. */
    lemma {:induction false} DispatchedOwned(tokens: seq<string>, c: nat)
      requires Acyclic()
      ensures var d := Dispatched(tokens, c);
        && OwnedBy(d.effects, {this} + Descendants)
        && (d.error.None? ==>
              && |d.effects| > 0 && d.effects[|d.effects| - 1] == Hook(this, PostExecute)
              && OwnedBy(d.effects[..|d.effects| - 1], Descendants))
        && (d.error.Some? ==> OwnedBy(d.effects, Descendants))
      decreases Descendants, 0
    {
      var d := Dispatched(tokens, c);
      var post := [Hook(this, PostExecute)];
      if c < |tokens| && |declaredSubcommands| > 0 {
        if tokens[c] in declaredSubcommands {
          var sub := declaredSubcommands[tokens[c]];
          var r := sub.Run(tokens, c + 1);
          assert sub in Descendants && sub.Descendants <= Descendants && sub !in sub.Descendants;
          sub.RunOwned(tokens, c + 1);
          OwnedWiden(r.effects, {sub} + sub.Descendants, Descendants);
          if r.error.None? {
            assert d.effects == r.effects + post;
            assert d.effects[..|d.effects| - 1] == r.effects;
            OwnedWiden(r.effects, Descendants, {this} + Descendants);
            OwnedConcat(r.effects, post, {this} + Descendants);
          } else {
            assert d == r;
            OwnedWiden(r.effects, Descendants, {this} + Descendants);
          }
        } else {
          assert d.effects == [];
        }
      } else {
        assert d.effects == post;
        assert d.effects[..0] == [];
      }
    }

    /** A run succeeds exactly when the build, the preparation and the dispatch do. */
    lemma RunSucceeds(tokens: seq<string>, i: nat)
      requires Acyclic()
      requires Run(tokens, i).error.None?
      ensures var p := Prepared(tokens, i);
        var d := Dispatched(tokens, p.cursor);
        && BuildCheck().Pass? && p.error.None? && d.error.None?
        && Run(tokens, i).effects == p.effects + [Hook(this, OnExecute)] + d.effects
    {
    }

    /** The order of a successful run: this command's setter calls, then its `onExecute`,
        then what the subcommand does, and its `postExecute` last. */
    lemma RunHookOrder(tokens: seq<string>, i: nat)
      requires Acyclic()
      requires Run(tokens, i).error.None?
      ensures var r := Run(tokens, i);
        var p := Prepared(tokens, i);
        && BuildCheck().Pass? && p.error.None?
        && |r.effects| >= |p.effects| + 2
        && r.effects[..|p.effects|] == p.effects && SettersOf(this, p.effects)
        && r.effects[|p.effects|] == Hook(this, OnExecute)
        && r.effects[|r.effects| - 1] == Hook(this, PostExecute)
        && OwnedBy(r.effects[|p.effects| + 1..|r.effects| - 1], Descendants)
    {
      var p := Prepared(tokens, i);
      var d := Dispatched(tokens, p.cursor);
      RunSucceeds(tokens, i);
      PreparedCallsSetters(tokens, i);
      DispatchedOwned(tokens, p.cursor);
      HookOrderShape(p.effects, Hook(this, OnExecute), d.effects, Hook(this, PostExecute), Descendants);
    }

    /** A failed run never reaches this command's `postExecute`. */
    lemma RunFailureSkipsPostExecute(tokens: seq<string>, i: nat)
      requires Acyclic()
      requires Run(tokens, i).error.Some?
      ensures Hook(this, PostExecute) !in Run(tokens, i).effects
    {
      var r := Run(tokens, i);
      if BuildCheck().Fail? {
        assert r.effects == [];
      } else {
        var p := Prepared(tokens, i);
        PreparedCallsSetters(tokens, i);
        SettersNoHook(this, p.effects, PostExecute);
        if p.error.Some? {
          assert r == p;
        } else {
          var d := Dispatched(tokens, p.cursor);
          RunUnfold(tokens, i);
          DispatchedOwned(tokens, p.cursor);
          RunHookSplit(p.effects, Hook(this, OnExecute), d.effects);
          assert this !in Descendants;
          OwnedExcludes(d.effects, Descendants, Hook(this, PostExecute));
        }
      }
    }

    /** The three ways dispatch goes. */
    lemma DispatchedCases(tokens: seq<string>, c: nat)
      requires Acyclic()
      ensures var d := Dispatched(tokens, c);
        if c < |tokens| && |declaredSubcommands| > 0 then
          if tokens[c] !in declaredSubcommands then d == Step(Some(SubcommandNotFound(tokens[c])), c, [])
          else
            var sub := declaredSubcommands[tokens[c]].Run(tokens, c + 1);
            d == Step(sub.error, sub.cursor, sub.effects + if sub.error.None? then [Hook(this, PostExecute)] else [])
        else d == Step(None, c, [Hook(this, PostExecute)])
    {
      if c < |tokens| && |declaredSubcommands| > 0 && tokens[c] in declaredSubcommands {
        var sub := declaredSubcommands[tokens[c]].Run(tokens, c + 1);
        assert sub.effects + [] == sub.effects;
      }
    }

    /** With subcommands, a token left after the arguments must name one of them. */
    lemma RunSubcommandNotFound(tokens: seq<string>, i: nat)
      requires Acyclic()
      requires BuildCheck().Pass? && Prepared(tokens, i).error.None?
      requires var c := Prepared(tokens, i).cursor;
        c < |tokens| && |declaredSubcommands| > 0 && tokens[c] !in declaredSubcommands
      ensures var p := Prepared(tokens, i);
        Run(tokens, i) == Step(Some(SubcommandNotFound(tokens[p.cursor])), p.cursor, p.effects + [Hook(this, OnExecute)])
    {
      var p := Prepared(tokens, i);
      RunUnfold(tokens, i);
      DispatchedCases(tokens, p.cursor);
      assert p.effects + [Hook(this, OnExecute)] + [] == p.effects + [Hook(this, OnExecute)];
    }

    /** The subcommand a token names runs on the tokens after it, after this command's
        `onExecute`; this command's `postExecute` follows only when the subcommand succeeds. */
    lemma RunSubcommand(tokens: seq<string>, i: nat)
      requires Acyclic()
      requires BuildCheck().Pass? && Prepared(tokens, i).error.None?
      requires var c := Prepared(tokens, i).cursor;
        c < |tokens| && tokens[c] in declaredSubcommands
      ensures var p := Prepared(tokens, i);
        var r := Run(tokens, i);
        var sub := declaredSubcommands[tokens[p.cursor]].Run(tokens, p.cursor + 1);
        && r.error == sub.error && r.cursor == sub.cursor
        && r.effects == p.effects + [Hook(this, OnExecute)] + sub.effects +
                        (if sub.error.None? then [Hook(this, PostExecute)] else [])
    {
      var p := Prepared(tokens, i);
      var before := p.effects + [Hook(this, OnExecute)];
      RunUnfold(tokens, i);
      DispatchedCases(tokens, p.cursor);
      var sub := declaredSubcommands[tokens[p.cursor]].Run(tokens, p.cursor + 1);
      var post: seq<Effect> := if sub.error.None? then [Hook(this, PostExecute)] else [];
      assert before + (sub.effects + post) == before + sub.effects + post;
    }

    /** Without subcommands, or without tokens left, the run ends with `postExecute` and
        ignores whatever tokens remain. */
    lemma RunWithoutDispatch(tokens: seq<string>, i: nat)
      requires Acyclic()
      requires BuildCheck().Pass? && Prepared(tokens, i).error.None?
      requires Prepared(tokens, i).cursor >= |tokens| || |declaredSubcommands| == 0
      ensures var p := Prepared(tokens, i);
        Run(tokens, i) == Step(None, p.cursor, p.effects + [Hook(this, OnExecute), Hook(this, PostExecute)])
    {
      var p := Prepared(tokens, i);
      RunUnfold(tokens, i);
      DispatchedCases(tokens, p.cursor);
      assert p.effects + [Hook(this, OnExecute)] + [Hook(this, PostExecute)] ==
             p.effects + [Hook(this, OnExecute), Hook(this, PostExecute)];
    }

    /** execute(String...): runs the command on a fresh cursor over the given tokens. */
    method ExecuteTokens(args: seq<string>) returns (outcome: Outcome<CommandError>, effects: seq<Effect>)
      requires Valid()
      modifies this, Descendants
      ensures Valid()
      ensures isBuilt == (old(isBuilt) || BuildCheck().Pass?)
      ensures forall d :: d in Descendants && old(d.isBuilt) ==> d.isBuilt
      ensures var r := Run(args, 0); outcome == ToOutcome(r.error) && effects == r.effects
    {
      var params := new Parameters(args);
      outcome, effects := Execute(params);
    }
  }
}
