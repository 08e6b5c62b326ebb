/** The command line of the `main` entry point: with no tokens it shows the usage text;
    otherwise one pass over the tokens sorts them into regular arguments (handed on to the
    subcommand dispatcher) and recognised options, which set fields of the CLI state. The
    configured repositories, the repository-string parser and the names of the pack features
    that can be ignored are parameters. */
module CliMain {
  import opened Wrappers
  import opened Text
  import opened JavaNumbers

  /** A pack filter: the identifier and the version string, kept as written. */
  datatype PackFilter = PackFilter(id: string, version: string)

  /** The CLI fields the options set. `selected` is `None` while no `-R` was given;
      `ignored` lists the ignored features in the order given. */
  datatype CliOptions<R> = CliOptions(filter: Option<PackFilter>, selected: Option<R>, skipPrompts: bool,
                                      ignoreErrors: bool, ignored: seq<string>)

  function Defaults<R>(): CliOptions<R> {
    CliOptions(None, None, false, false, [])
  }

  /** Why the command line is refused; each stands for a message and exit status 1, or for
      the exception the Java code does not catch. */
  datatype MainError =
    | MissingValue(option: string)             // args[++i] past the end
    | MalformedIndex(repository: string)       // "#..." whose rest is not an int
    | RepositoryOutOfBounds(index: int)        // "Repository #n doesn't exists (Out of bound)"
    | NegativeRepositoryIndex(index: int)      // List.get with a negative index
    | UnknownRepository(repository: string)    // "Unknown repository string: ..."
    | UnknownFeature(feature: string)          // "Unknown feature: ..."
    | UnknownOption(option: string)            // "Unknown option: ..."

  /** What `main` goes on to do: print the usage text, run the CLI with the options and the
      regular arguments, or stop with an error. */
  datatype Invocation<R> = Usage | Run(options: CliOptions<R>, regular: seq<string>) | Failed(error: MainError)

  predicate IsFilterOption(s: string) { s == "-F" || s == "--filter" }
  predicate IsRepositoryOption(s: string) { s == "-R" || s == "--repo" }

  /** The argument of `-R`: "#n" selects the n-th configured repository, anything else goes
      to the repository parser, whose `None` is an error. */
  function SelectRepository<R>(repository: string, repositories: seq<R>, parse: string -> Option<R>): Result<R, MainError> {
    if StartsWith(repository, "#") then
      var index := ParseInt(repository[1..]);
      if index.None? then Failure(MalformedIndex(repository))
      else if index.value >= |repositories| then Failure(RepositoryOutOfBounds(index.value))
      else if index.value < 0 then Failure(NegativeRepositoryIndex(index.value))
      else Success(repositories[index.value])
    else
      var parsed := parse(repository);
      if parsed.None? then Failure(UnknownRepository(repository)) else Success(parsed.value)
  }

  /** Where one pass of the loop leaves the scan: at the next token to look at, with the new
      options and regular arguments, or stopped with an error. */
  datatype Advance<R> = Next(i: nat, options: CliOptions<R>, regular: seq<string>) | Stop(error: MainError)

  /** One pass of the loop at token `i`. */
  function ScanStep<R>(args: seq<string>, i: nat, repositories: seq<R>, parse: string -> Option<R>,
                       features: set<string>, c: CliOptions<R>, regular: seq<string>): (r: Advance<R>)
    requires i < |args|
    ensures r.Next? ==> i < r.i <= |args|
  {
    var s := args[i];
    if !StartsWith(s, "-") then Next(i + 1, c, regular + [s])
    else if IsFilterOption(s) then
      if i + 2 >= |args| then Stop(MissingValue(s))
      else Next(i + 3, c.(filter := Some(PackFilter(args[i + 1], args[i + 2]))), regular)
    else if IsRepositoryOption(s) then
      if i + 1 >= |args| then Stop(MissingValue(s))
      else
        var chosen := SelectRepository(args[i + 1], repositories, parse);
        if chosen.Failure? then Stop(chosen.error)
        else Next(i + 2, c.(selected := Some(chosen.value)), regular)
    else if s == "--skip" then Next(i + 1, c.(skipPrompts := true), regular)
    else if s == "--ignore-errors" then Next(i + 1, c.(ignoreErrors := true), regular)
    else if s == "--ignore" then
      if i + 1 >= |args| then Stop(MissingValue(s))
      else if ToUpper(args[i + 1]) in features then Next(i + 2, c.(ignored := c.ignored + [ToUpper(args[i + 1])]), regular)
      else Stop(UnknownFeature(args[i + 1]))
    else Stop(UnknownOption(s))
  }

  /** The loop from token `i` on. It never asks for the usage text. */
  function ScanFrom<R>(args: seq<string>, i: nat, repositories: seq<R>, parse: string -> Option<R>,
                       features: set<string>, c: CliOptions<R>, regular: seq<string>): (r: Invocation<R>)
    decreases |args| - i
    ensures !r.Usage?
  {
    if i >= |args| then Run(c, regular)
    else
      var step := ScanStep(args, i, repositories, parse, features, c, regular);
      if step.Stop? then Failed(step.error)
      else ScanFrom(args, step.i, repositories, parse, features, step.options, step.regular)
  }

  /** The whole loop, from the defaults. */
  function Scan<R>(args: seq<string>, repositories: seq<R>, parse: string -> Option<R>, features: set<string>): Invocation<R> {
    ScanFrom(args, 0, repositories, parse, features, Defaults(), [])
  }

  /** What `main` does with its tokens once the platform is known to be supported. */
  function Interpret<R>(args: seq<string>, repositories: seq<R>, parse: string -> Option<R>,
                        features: set<string>): (r: Invocation<R>)
    ensures r.Usage? <==> |args| == 0
  {
    if |args| == 0 then Usage else Scan(args, repositories, parse, features)
  }

  /** main, lines 23 to 112: the usage text for no tokens, else the option loop, then the
      hand-over to the CLI. */
  method ParseCommandLine<R>(args: seq<string>, repositories: seq<R>, parse: string -> Option<R>,
                             features: set<string>) returns (r: Invocation<R>)
    ensures r == Interpret(args, repositories, parse, features)
  {
    if |args| == 0 {
      return Usage;
    }
    var cli: CliOptions<R> := Defaults();
    var regularArguments: seq<string> := [];
    var i := 0;
    while i < |args|
      invariant i <= |args|
      invariant Scan(args, repositories, parse, features) ==
                ScanFrom(args, i, repositories, parse, features, cli, regularArguments)
      decreases |args| - i
    {
      var s := args[i];
      if !StartsWith(s, "-") {
        regularArguments := regularArguments + [s];
        i := i + 1;
        continue;
      }
      if IsFilterOption(s) {
        if i + 2 >= |args| {
          return Failed(MissingValue(s));
        }
        cli := cli.(filter := Some(PackFilter(args[i + 1], args[i + 2])));
        i := i + 2;
      } else if IsRepositoryOption(s) {
        if i + 1 >= |args| {
          return Failed(MissingValue(s));
        }
        i := i + 1;
        var repoStr := args[i];
        var chosen := SelectRepository(repoStr, repositories, parse);
        if chosen.Failure? {
          return Failed(chosen.error);
        }
        cli := cli.(selected := Some(chosen.value));
      } else if s == "--skip" {
        cli := cli.(skipPrompts := true);
      } else if s == "--ignore-errors" {
        cli := cli.(ignoreErrors := true);
      } else if s == "--ignore" {
        if i + 1 >= |args| {
          return Failed(MissingValue(s));
        }
        i := i + 1;
        var featureString := args[i];
        if ToUpper(featureString) !in features {
          return Failed(UnknownFeature(featureString));
        }
        cli := cli.(ignored := cli.ignored + [ToUpper(featureString)]);
      } else {
        return Failed(UnknownOption(s));
      }
      i := i + 1;
    }
    return Run(cli, regularArguments);
  }

  // ---------------------------------------------------------------------------------------
  // Properties of the loop

  /** A command line that the loop accepts is read to its very end, so whatever follows it
      is read from the state it leaves. */
  lemma {:induction false} ScanAppend<R>(args: seq<string>, tail: seq<string>, i: nat, repositories: seq<R>,
                                         parse: string -> Option<R>, features: set<string>,
                                         c: CliOptions<R>, regular: seq<string>)
    requires i <= |args|
    requires ScanFrom(args, i, repositories, parse, features, c, regular).Run?
    ensures var r := ScanFrom(args, i, repositories, parse, features, c, regular);
      ScanFrom(args + tail, i, repositories, parse, features, c, regular) ==
      ScanFrom(args + tail, |args|, repositories, parse, features, r.options, r.regular)
    decreases |args| - i
  {
    if i < |args| {
      var step := ScanStep(args, i, repositories, parse, features, c, regular);
      ScanStepExtends(args, tail, i, repositories, parse, features, c, regular);
      ScanAppend(args, tail, step.i, repositories, parse, features, step.options, step.regular);
    }
  }

  /** A pass that goes on reads only tokens of `args`, so it goes the same way when more
      tokens follow. */
  lemma ScanStepExtends<R>(args: seq<string>, tail: seq<string>, i: nat, repositories: seq<R>,
                           parse: string -> Option<R>, features: set<string>,
                           c: CliOptions<R>, regular: seq<string>)
    requires i < |args|
    requires ScanStep(args, i, repositories, parse, features, c, regular).Next?
    ensures ScanStep(args + tail, i, repositories, parse, features, c, regular) ==
            ScanStep(args, i, repositories, parse, features, c, regular)
  {
    var longer := args + tail;
    assert longer[i] == args[i];
    if i + 1 < |args| {
      assert longer[i + 1] == args[i + 1];
    }
    if i + 2 < |args| {
      assert longer[i + 2] == args[i + 2];
    }
  }

  /** The loop over the tokens that follow an accepted command line. */
  lemma AfterAccepted<R>(args: seq<string>, tail: seq<string>, repositories: seq<R>,
                         parse: string -> Option<R>, features: set<string>)
    requires Scan(args, repositories, parse, features).Run?
    ensures var r := Scan(args, repositories, parse, features);
      Scan(args + tail, repositories, parse, features) ==
      ScanFrom(args + tail, |args|, repositories, parse, features, r.options, r.regular)
  {
    ScanAppend(args, tail, 0, repositories, parse, features, Defaults(), []);
  }

  /** Tokens that do not start with '-' are collected as regular arguments, in their order. */
  lemma {:induction false} PlainTokensAreRegular<R>(args: seq<string>, i: nat, repositories: seq<R>,
                                                    parse: string -> Option<R>, features: set<string>,
                                                    c: CliOptions<R>, regular: seq<string>)
    requires i <= |args|
    requires forall k :: i <= k < |args| ==> !StartsWith(args[k], "-")
    ensures ScanFrom(args, i, repositories, parse, features, c, regular) == Run(c, regular + args[i..])
    decreases |args| - i
  {
    if i < |args| {
      PlainTokensAreRegular(args, i + 1, repositories, parse, features, c, regular + [args[i]]);
      assert args[i..] == [args[i]] + args[i + 1..];
      assert regular + [args[i]] + args[i + 1..] == regular + args[i..];
    } else {
      assert regular + args[i..] == regular;
    }
  }

  /** A command line without options runs with the defaults and all its tokens as regular
      arguments. */
  lemma WithoutOptions<R>(args: seq<string>, repositories: seq<R>, parse: string -> Option<R>, features: set<string>)
    requires |args| > 0
    requires forall k :: 0 <= k < |args| ==> !StartsWith(args[k], "-")
    ensures Interpret(args, repositories, parse, features) == Run(Defaults(), args)
  {
    PlainTokensAreRegular(args, 0, repositories, parse, features, Defaults(), []);
    assert [] + args[0..] == args;
  }

  /** A regular argument after an accepted command line is appended to the regular
      arguments. */
  lemma RegularAppended<R>(args: seq<string>, s: string, repositories: seq<R>,
                           parse: string -> Option<R>, features: set<string>)
    requires Scan(args, repositories, parse, features).Run?
    requires !StartsWith(s, "-")
    ensures var r := Scan(args, repositories, parse, features);
      Scan(args + [s], repositories, parse, features) == Run(r.options, r.regular + [s])
  {
    AfterAccepted(args, [s], repositories, parse, features);
  }

  /** `-F id version` takes exactly the next two tokens, and a later filter replaces any
      earlier one. */
  lemma FilterLastWins<R>(args: seq<string>, flag: string, id: string, version: string, repositories: seq<R>,
                          parse: string -> Option<R>, features: set<string>)
    requires Scan(args, repositories, parse, features).Run?
    requires IsFilterOption(flag)
    ensures var r := Scan(args, repositories, parse, features);
      Scan(args + [flag, id, version], repositories, parse, features) ==
      Run(r.options.(filter := Some(PackFilter(id, version))), r.regular)
  {
    AfterAccepted(args, [flag, id, version], repositories, parse, features);
  }

  /** `-R x` replaces any earlier selection by the repository `x` selects, or fails as its
      selection does. */
  lemma RepositoryLastWins<R>(args: seq<string>, flag: string, repository: string, repositories: seq<R>,
                              parse: string -> Option<R>, features: set<string>)
    requires Scan(args, repositories, parse, features).Run?
    requires IsRepositoryOption(flag)
    ensures var r := Scan(args, repositories, parse, features);
      var chosen := SelectRepository(repository, repositories, parse);
      Scan(args + [flag, repository], repositories, parse, features) ==
      if chosen.Success? then Run(r.options.(selected := Some(chosen.value)), r.regular)
      else Failed(chosen.error)
  {
    AfterAccepted(args, [flag, repository], repositories, parse, features);
  }

  /** "#n" selects the n-th configured repository when there is one; an index at or past the
      end is out of bounds, a negative one fails in the list lookup, and one beyond the int
      range is not a number. */
  lemma SelectByIndex<R>(n: int, repositories: seq<R>, parse: string -> Option<R>)
    ensures var chosen := SelectRepository("#" + FormatDecimal(n), repositories, parse);
      && (0 <= n < |repositories| && n <= INT_MAX ==> chosen == Success(repositories[n]))
      && (|repositories| <= n <= INT_MAX ==> chosen == Failure(RepositoryOutOfBounds(n)))
      && (INT_MIN <= n < 0 ==> chosen == Failure(NegativeRepositoryIndex(n)))
      && (n < INT_MIN || INT_MAX < n ==> chosen == Failure(MalformedIndex("#" + FormatDecimal(n))))
  {
    var str := "#" + FormatDecimal(n);
    assert StartsWith(str, "#") && str[1..] == FormatDecimal(n);
    ParseFormatRoundTrip(n, INT_MIN, INT_MAX);
  }

  /** "#" followed by anything that is not a decimal numeral ("#abc", "#", "# 1") is a
      malformed index, whatever the configured repositories. */
  lemma SelectMalformedIndex<R>(rest: string, repositories: seq<R>, parse: string -> Option<R>)
    requires !IsDecimalNumeral(rest)
    ensures SelectRepository("#" + rest, repositories, parse) == Failure(MalformedIndex("#" + rest))
  {
    var str := "#" + rest;
    assert StartsWith(str, "#") && str[1..] == rest;
    ParseAcceptsOnlyNumerals(rest, INT_MIN, INT_MAX);
  }

  /** Any other repository string never consults the configured repositories: the selection
      is the same whatever the list, and succeeds exactly when the parser answers, with that
      answer. */
  lemma SelectByParser<R>(repository: string, repositories: seq<R>, others: seq<R>, parse: string -> Option<R>)
    requires !StartsWith(repository, "#")
    ensures SelectRepository(repository, repositories, parse) == SelectRepository(repository, others, parse)
    ensures SelectRepository(repository, repositories, parse).Success? <==> parse(repository).Some?
    ensures SelectRepository(repository, repositories, parse).Success? ==>
              Some(SelectRepository(repository, repositories, parse).value) == parse(repository)
  {
  }

  /** `--skip` and `--ignore-errors` only switch their flag on: repeating them changes
      nothing. */
  lemma FlagsOnlySwitchOn<R>(args: seq<string>, flag: string, repositories: seq<R>,
                             parse: string -> Option<R>, features: set<string>)
    requires Scan(args, repositories, parse, features).Run?
    requires flag == "--skip" || flag == "--ignore-errors"
    ensures var r := Scan(args, repositories, parse, features);
      var once := Scan(args + [flag], repositories, parse, features);
      && once.Run? && once.regular == r.regular
      && once.options == (if flag == "--skip" then r.options.(skipPrompts := true) else r.options.(ignoreErrors := true))
      && Scan(args + [flag] + [flag], repositories, parse, features) == once
  {
    AfterAccepted(args, [flag], repositories, parse, features);
    AfterAccepted(args + [flag], [flag], repositories, parse, features);
  }

  /** `--ignore x` names a feature in any case: `x` is upper-cased before the lookup, the
      feature is recorded by its name, and an unknown name is an error. */
  lemma IgnoreMatchesAnyCase<R>(args: seq<string>, x: string, repositories: seq<R>,
                                parse: string -> Option<R>, features: set<string>)
    requires Scan(args, repositories, parse, features).Run?
    ensures var r := Scan(args, repositories, parse, features);
      Scan(args + ["--ignore", x], repositories, parse, features) ==
      if ToUpper(x) in features then Run(r.options.(ignored := r.options.ignored + [ToUpper(x)]), r.regular)
      else Failed(UnknownFeature(x))
  {
    AfterAccepted(args, ["--ignore", x], repositories, parse, features);
  }

  /** Two spellings that differ only in case ignore the same feature. */
  lemma IgnoreCaseInsensitive<R>(args: seq<string>, x: string, y: string, repositories: seq<R>,
                                 parse: string -> Option<R>, features: set<string>)
    requires Scan(args, repositories, parse, features).Run?
    requires ToLower(x) == ToLower(y)
    ensures var a := Scan(args + ["--ignore", x], repositories, parse, features);
      var b := Scan(args + ["--ignore", y], repositories, parse, features);
      a.Run? <==> b.Run?
    ensures var a := Scan(args + ["--ignore", x], repositories, parse, features);
      a.Run? ==> a == Scan(args + ["--ignore", y], repositories, parse, features)
  {
    IgnoreMatchesAnyCase(args, x, repositories, parse, features);
    IgnoreMatchesAnyCase(args, y, repositories, parse, features);
    ToUpperOfLower(x);
    ToUpperOfLower(y);
  }

  /** Any dash token other than the recognised options stops the command line, whatever
      follows it. */
  lemma UnknownOptionRejected<R>(args: seq<string>, s: string, rest: seq<string>, repositories: seq<R>,
                                 parse: string -> Option<R>, features: set<string>)
    requires Scan(args, repositories, parse, features).Run?
    requires StartsWith(s, "-") && !IsFilterOption(s) && !IsRepositoryOption(s)
    requires s != "--skip" && s != "--ignore-errors" && s != "--ignore"
    ensures Scan(args + [s] + rest, repositories, parse, features) == Failed(UnknownOption(s))
  {
    AfterAccepted(args, [s] + rest, repositories, parse, features);
    assert args + [s] + rest == args + ([s] + rest);
    assert (args + ([s] + rest))[|args|] == s;
  }

  /** The usage text advertises `-I`, `-O` and `--output`, but the loop rejects them. */
  lemma AdvertisedButUnknown<R>(s: string, rest: seq<string>, repositories: seq<R>,
                                parse: string -> Option<R>, features: set<string>)
    requires s == "-I" || s == "-O" || s == "--output"
    ensures Interpret([s] + rest, repositories, parse, features) == Failed(UnknownOption(s))
  {
    assert StartsWith(s, "-");
    assert ([s] + rest)[0] == s;
  }

  /** An option that takes a value fails when no token is left for it. */
  lemma TrailingOptionMissesValue<R>(args: seq<string>, flag: string, repositories: seq<R>,
                                     parse: string -> Option<R>, features: set<string>)
    requires Scan(args, repositories, parse, features).Run?
    requires IsRepositoryOption(flag) || flag == "--ignore"
    ensures Scan(args + [flag], repositories, parse, features) == Failed(MissingValue(flag))
  {
    AfterAccepted(args, [flag], repositories, parse, features);
  }

  /** `-F` needs two tokens after it: with fewer it fails. */
  lemma ShortFilterMissesValue<R>(args: seq<string>, flag: string, more: seq<string>, repositories: seq<R>,
                                  parse: string -> Option<R>, features: set<string>)
    requires Scan(args, repositories, parse, features).Run?
    requires IsFilterOption(flag) && |more| <= 1
    ensures Scan(args + ([flag] + more), repositories, parse, features) == Failed(MissingValue(flag))
  {
    AfterAccepted(args, [flag] + more, repositories, parse, features);
  }
}
