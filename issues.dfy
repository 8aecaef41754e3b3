/** What the three catalog validators report. Each Python message format is
    one constructor carrying the values the message interpolates; two files
    that print the same format produce the same constructor. */
module Issues {
  import opened JsonValues
  import opened Gathering

  /** The message prefix: `[catalog]`, `[channel#i:name]`, then `[block#j]`
      and `[criteria#k]` appended to the enclosing prefix. */
  datatype Scope =
    | CatalogScope
    | ChannelScope(index: nat, name: Json)
    | BlockScope(channel: Scope, index: nat)
    | CriterionScope(block: Scope, index: nat)

  datatype Issue =
    // structure layer
    | MissingKey(scope: Scope, key: string)
    | ChannelsNotList
    | ChannelNotObject(index: nat)
    | NotAString(scope: Scope, key: string)
    | NotANumber(scope: Scope, key: string)
    | FillersNotList(scope: Scope)
    | FillerNotString(scope: Scope)
    | UnknownFiller(scope: Scope, filler: Json)
    | BlocksNotNonEmptyList(scope: Scope)
    | NotAnObject(scope: Scope)
    | SlotCountNotInteger(scope: Scope)
    | SlotFormatNotObject(scope: Scope)
    | SlotFormatKeyMissing(scope: Scope, key: string)
    | SlotFormatKeyNotNumber(scope: Scope, key: string)
    | CriteriaNotNonEmptyList(scope: Scope)
    | ShowsNotList(scope: Scope)
    | ValuesNotNonEmptyList(scope: Scope)
    | ForbiddenNotBool(scope: Scope)
    // business-rule layer
    | BeginNotBeforeEnd(scope: Scope, begin: real, end: real)
    | BlocksNotSortable(scope: Scope)
    | FirstBlockMisaligned(scope: Scope, expected: real, got: real)
    | LastBlockMisaligned(scope: Scope, expected: real, got: real)
    | Overlap(scope: Scope, pair: nat, currentEnd: real, nextBegin: real)
    | Gap(scope: Scope, pair: nat, currentEnd: real, nextBegin: real)
    | OutOfRange(scope: Scope, block: nat, blockBegin: real, blockEnd: real, begin: real, end: real)
    | SlotCountNotOneOrTwo(scope: Scope, count: Json)
    | SlotFormatNotAllowed(scope: Scope, format: Json)
    | DurationMismatch(scope: Scope, actual: real, expected: real)
    | CriteriaRequired(scope: Scope)
    | InvalidCategory(scope: Scope, category: Json)
    | UnknownGenre(scope: Scope, value: Json)
    | InvalidType(scope: Scope, value: Json)
    | LanguageNotString(scope: Scope, value: Json)
    | DurationNotNumeric(scope: Scope, value: Json)
    | DurationNotPositive(scope: Scope, value: Json)
    // older standalone validator only
    | BeginEndNotNumeric(scope: Scope)
    | ShowsMissing(scope: Scope)

  /** An exception that escapes a validator instead of being reported. */
  datatype Fault =
    | Unhashable(value: Json)      // TypeError from `value in some_set`
    | NotNumeric(value: Json)      // TypeError from float(value) or arithmetic on it
    | MissingField(key: string)    // KeyError from obj[key]
    | NotADict(value: Json)        // AttributeError / TypeError from value.get or value[key]

  /** The result of a validator call: the error list, or the exception it raises. */
  datatype Outcome = Report(issues: seq<Issue>) | Raised(fault: Fault)

  /** Run `a`, then `b`, appending: the first exception aborts the whole call. */
  function Then(a: Outcome, b: Outcome): Outcome
  {
    match a
    case Raised(_) => a
    case Report(x) =>
      match b
      case Raised(_) => b
      case Report(y) => Report(x + y)
  }

  lemma ThenAssociative(a: Outcome, b: Outcome, c: Outcome)
    ensures Then(Then(a, b), c) == Then(a, Then(b, c))
  {
  }

  /** Three steps in a row, the first of which cannot raise. */
  lemma ThenOfThree(a: seq<Issue>, b: Outcome, c: Outcome)
    ensures b.Raised? ==> Then(Report(a), Then(b, c)) == b
    ensures b.Report? && c.Raised? ==> Then(Report(a), Then(b, c)) == c
    ensures b.Report? && c.Report? ==> Then(Report(a), Then(b, c)) == Report(a + b.issues + c.issues)
  {
  }

  /** `for j, x in enumerate(xs): errors.extend(f(j, x))` when a round may raise. */
  function GatherOutcome<T>(xs: seq<T>, f: (nat, T) -> Outcome, n: nat): Outcome
    requires n <= |xs|
    decreases n
  {
    if n == 0 then Report([]) else Then(GatherOutcome(xs, f, n - 1), f(n - 1, xs[n - 1]))
  }

  /** Two loops whose rounds agree on every element agree. */
  lemma {:induction false} GatherOutcomeCongruent<T>(xs: seq<T>, f: (nat, T) -> Outcome, g: (nat, T) -> Outcome, n: nat)
    requires n <= |xs|
    requires forall j :: 0 <= j < n ==> f(j, xs[j]) == g(j, xs[j])
    ensures GatherOutcome(xs, f, n) == GatherOutcome(xs, g, n)
    decreases n
  {
    if n > 0 {
      GatherOutcomeCongruent(xs, f, g, n - 1);
    }
  }

  /** The loop raises exactly when one of its rounds raises. */
  lemma {:induction false} GatherOutcomeRaises<T>(xs: seq<T>, f: (nat, T) -> Outcome, n: nat)
    requires n <= |xs|
    ensures GatherOutcome(xs, f, n).Raised? <==> exists j :: 0 <= j < n && f(j, xs[j]).Raised?
    decreases n
  {
    if n > 0 {
      GatherOutcomeRaises(xs, f, n - 1);
    }
  }

  /** Once a round has raised, the later rounds never run. */
  lemma {:induction false} GatherOutcomeStaysRaised<T>(xs: seq<T>, f: (nat, T) -> Outcome, m: nat, n: nat)
    requires m <= n <= |xs|
    requires GatherOutcome(xs, f, m).Raised?
    ensures GatherOutcome(xs, f, n) == GatherOutcome(xs, f, m)
    decreases n
  {
    if m < n {
      GatherOutcomeStaysRaised(xs, f, m, n - 1);
    }
  }

  /** A loop whose round `j` raises, after `j` quiet rounds, raises what round `j` raised. */
  lemma GatherOutcomeRaisedAt<T>(xs: seq<T>, f: (nat, T) -> Outcome, j: nat)
    requires j < |xs|
    requires GatherOutcome(xs, f, j).Report?
    requires f(j, xs[j]).Raised?
    ensures GatherOutcome(xs, f, |xs|) == f(j, xs[j])
  {
    GatherOutcomeStaysRaised(xs, f, j + 1, |xs|);
  }

  /** When the loop completes, an issue was appended exactly when some round appended it. */
  lemma {:induction false} GatherOutcomeMember<T>(xs: seq<T>, f: (nat, T) -> Outcome, n: nat, u: Issue)
    requires n <= |xs|
    requires GatherOutcome(xs, f, n).Report?
    ensures forall j :: 0 <= j < n ==> f(j, xs[j]).Report?
    ensures u in GatherOutcome(xs, f, n).issues <==>
              exists j :: 0 <= j < n && u in f(j, xs[j]).issues
    decreases n
  {
    if n > 0 {
      GatherOutcomeMember(xs, f, n - 1, u);
      var prev := GatherOutcome(xs, f, n - 1).issues;
      assert GatherOutcome(xs, f, n).issues == prev + f(n - 1, xs[n - 1]).issues;
    }
  }

  /** When the loop completes, it reported nothing exactly when no round reported anything. */
  lemma {:induction false} GatherOutcomeEmpty<T>(xs: seq<T>, f: (nat, T) -> Outcome, n: nat)
    requires n <= |xs|
    ensures GatherOutcome(xs, f, n) == Report([]) <==>
              forall j :: 0 <= j < n ==> f(j, xs[j]) == Report([])
    decreases n
  {
    if n > 0 {
      GatherOutcomeEmpty(xs, f, n - 1);
    }
  }
}
