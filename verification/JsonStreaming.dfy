/** Recovering a value from a cut-off JSON text, and what such a recovery keeps. */
module JsonStreaming {
  import opened Wrappers
  import opened Text
  import opened JsonRepair
  import opened JsonParser
  import opened JsonCompletion
  import opened JsonScanners

  // ---------------------------------------------------------------------
  // The recovery function.

  function ParseWithRepair(scalar: string -> bool, s: string): Option<Value> {
    match Parse(scalar, s)
    case Some(v) => Some(v)
    case None =>
      var repaired := Repair(s, false);
      if repaired != s then Parse(scalar, repaired) else None
  }

  /** Complete a text and read the completion. */
  function Attempt(scalar: string -> bool, s: string): Option<Value> {
    match Complete(s)
    case None => None
    case Some(t) => ParseWithRepair(scalar, t)
  }

  function Attempts(scalar: string -> bool, candidates: seq<string>): (a: seq<Option<Value>>)
    ensures |a| == |candidates|
  {
    seq(|candidates|, i requires 0 <= i < |candidates| => Attempt(scalar, candidates[i]))
  }

  /** The last value among the attempts, or the empty object. */
  function LastValue(attempts: seq<Option<Value>>): Value {
    if attempts == [] then Obj([])
    else
      match attempts[|attempts| - 1]
      case Some(v) => v
      case None => LastValue(attempts[..|attempts| - 1])
  }

  function ParseStreaming(scalar: string -> bool, partial: Option<string>): Value {
    if partial.None? || IsBlank(partial.value) then Obj([])
    else
      var s := partial.value;
      match ParseWithRepair(scalar, s)
      case Some(v) => v
      case None =>
        match Attempt(scalar, s)
        case Some(v) => v
        case None =>
          LastValue(Attempts(scalar, Candidates(Repair(s, false))))
  }

  // ---------------------------------------------------------------------
  // What a reader state promises about the object it will finally deliver.

  /** The members the object must begin with and, optionally, the key of the member after them. */
  datatype Goal = Goal(members: seq<Member>, key: Option<string>)

  predicate ValueHolds(v: Value, g: Goal) {
    && v.Obj? && g.members <= v.members
    && (g.key.Some? ==> |g.members| < |v.members| && v.members[|g.members|].key == g.key.value)
  }

  predicate Holds(st: State, g: Goal) {
    match st.mode
    case Fail => true
    case Done(v) => st.stack == [] && ValueHolds(v, g)
    case _ =>
      && st.stack != [] && st.stack[0].ObjFrame?
      && var f := st.stack[0];
         && g.members <= f.members
         && (g.key.Some? ==>
               || (|g.members| < |f.members| && f.members[|g.members|].key == g.key.value)
               || (f.members == g.members && f.key == g.key.value && ReadsValue(st)))
  }

  lemma DeliverHolds(stack: seq<Frame>, mode: Mode, v: Value, g: Goal)
    requires Holds(State(stack, mode), g) && !mode.Fail? && !mode.Done?
    requires ReadsValue(State(stack, mode)) || g.key.None?
             || |g.members| < |stack[0].members|
    ensures Holds(Deliver(stack, v), g)
  {
  }

  lemma CloseHolds(st: State, c: char, g: Goal)
    requires Holds(st, g) && !st.mode.Fail? && !st.mode.Done?
    requires |st.stack| > 1 || !ReadsValue(st)
    ensures Holds(Close(st.stack, c), g)
  {
  }

  lemma ContinueHolds(st: State, c: char, g: Goal)
    requires Holds(st, g) && (st.mode.AfterValue? || st.mode.Done?)
    ensures Holds(Continue(st, c), g)
  {
    if st.mode.AfterValue? && IsCloser(c) {
      CloseHolds(st, c, g);
    }
  }

  lemma EndStringHolds(st: State, g: Goal)
    requires Holds(st, g) && st.mode.InString?
    ensures Holds(EndString(st.stack, st.mode.raw, st.mode.isKey), g)
  {
    if Decode(st.mode.raw).Some? && !st.mode.isKey {
      DeliverHolds(st.stack, st.mode, Str(Decode(st.mode.raw).value), g);
    }
  }

  /** The promise survives every further character. */
  lemma StepHolds(scalar: string -> bool, st: State, c: char, g: Goal)
    requires Holds(st, g)
    ensures Holds(Step(scalar, st, c), g)
  {
    match st.mode
    case InString(raw, escaped, isKey) =>
      if !escaped && c == '"' { EndStringHolds(st, g); }
    case InWord(word) =>
      if !IsWordChar(c) && scalar(word) {
        DeliverHolds(st.stack, st.mode, Scalar(word), g);
        ContinueHolds(Deliver(st.stack, Scalar(word)), c, g);
      }
    case AfterValue => ContinueHolds(st, c, g);
    case Done(_) => ContinueHolds(st, c, g);
    case ExpectValueOrClose =>
      if IsCloser(c) { CloseHolds(st, c, g); }
    case ExpectKeyOrClose =>
      if IsCloser(c) { CloseHolds(st, c, g); }
    case _ =>
  }

  lemma {:induction false} RunHolds(scalar: string -> bool, pre: string, s: string, g: Goal)
    requires pre <= s && Holds(Run(scalar, pre), g)
    ensures Holds(Run(scalar, s), g)
    decreases |s|
  {
    if |s| == |pre| {
      assert s == pre;
    } else {
      assert pre <= s[..|s| - 1];
      RunHolds(scalar, pre, s[..|s| - 1], g);
      StepHolds(scalar, Run(scalar, s[..|s| - 1]), s[|s| - 1], g);
    }
  }

  lemma ParseHolds(scalar: string -> bool, pre: string, s: string, g: Goal)
    requires pre <= s && Holds(Run(scalar, pre), g) && Parse(scalar, s).Some?
    ensures ValueHolds(Parse(scalar, s).value, g)
  {
    RunHolds(scalar, pre, s, g);
  }

  // ---------------------------------------------------------------------
  // Anchors: a prefix whose members every recovery must keep.

  /** The text ends with an opening bracket, colon or comma inside exactly one open object. */
  predicate CommitsAt(x: string) {
    && x != [] && SurveyOf(x).open == Some(['}'])
    && var last := x[|x| - 1]; last == '{' || last == ':' || last == ','
  }

  /** `pre` ends with the bracket, comma or colon that commits the outermost object to the goal,
      and neither repairing nor completing an extension of it can undo that. */
  ghost predicate Anchored(scalar: string -> bool, pre: string, g: Goal) {
    && Promises(scalar, pre, g)
    && CompleteRun(pre).Some?
    && var st := CompleteRun(pre).value;
       && CommitsAt(st.text)
       && Promises(scalar, st.text, g)
       && (EndsWith(st.text, ',') ==> Promises(scalar, Ended(st.text), g))
  }

  ghost predicate Promises(scalar: string -> bool, x: string, g: Goal) {
    Stable(x) && Holds(Run(scalar, x), g)
  }

  /** The object ended where its last comma stood. */
  function Ended(x: string): string
    requires x != []
  {
    x[..|x| - 1] + ['}']
  }

  /** A written text that still carries the anchor `x`. */
  predicate Carries(x: string, t: string)
    requires x != []
  {
    x <= t || (EndsWith(x, ',') && Ended(x) <= t)
  }

  lemma PromiseKept(scalar: string -> bool, x: string, t: string, g: Goal)
    requires Promises(scalar, x, g) && x <= t && ParseWithRepair(scalar, t).Some?
    ensures ValueHolds(ParseWithRepair(scalar, t).value, g)
  {
    if Parse(scalar, t).Some? {
      ParseHolds(scalar, x, t, g);
    } else {
      assert t == x + t[|x|..];
      assert Repair(x + t[|x|..], false) == x + Repair(t[|x|..], false);
      ParseHolds(scalar, x, Repair(t, false), g);
    }
  }

  lemma {:induction false} TrimKeepsPrefix(x: string, t: string)
    requires x <= t && x != [] && !IsWhitespace(x[|x| - 1])
    ensures x <= TrimEnd(t)
    decreases |t|
  {
    if |t| == |x| {
      assert t == x;
    } else if IsWhitespace(t[|t| - 1]) {
      TrimKeepsPrefix(x, t[..|t| - 1]);
    }
  }

  lemma PruneCarries(x: string, t: string, closers: seq<char>)
    requires CommitsAt(x)
    requires Carries(x, t) && SurveyOf(t).lex == OUTSIDE && SurveyOf(t).open == Some(closers) && closers != []
    ensures Carries(x, DropComma(TrimEnd(t)) + [closers[|closers| - 1]])
  {
    var c := closers[|closers| - 1];
    if x <= t {
      TrimKeepsPrefix(x, t);
      if !(x <= DropComma(TrimEnd(t))) {
        assert TrimEnd(t) == x && EndsWith(x, ',');
        TrimSurvey(t);
        assert closers == ['}'];
        assert DropComma(x) + [c] == Ended(x);
      }
    } else {
      TrimKeepsPrefix(Ended(x), t);
      assert Ended(x) <= DropComma(TrimEnd(t));
    }
  }

  lemma StepCarries(x: string, st: Completer, c: char)
    requires CommitsAt(x) && Carries(x, st.text) && CompleteStep(st, c).Some?
    requires SurveyOf(st.text).lex == st.lex && SurveyOf(st.text).open == Some(st.closers)
    ensures Carries(x, CompleteStep(st, c).value.text)
  {
    if !st.lex.inString && IsCloser(c) {
      LexNeverEscapedOutside(st.text);
      PruneCarries(x, st.text, st.closers);
    } else {
      assert st.text <= st.text + [c];
    }
  }

  lemma {:induction false} RunCarries(pre: string, r: string)
    requires pre <= r && CompleteRun(pre).Some? && CompleteRun(r).Some?
    requires CommitsAt(CompleteRun(pre).value.text)
    ensures Carries(CompleteRun(pre).value.text, CompleteRun(r).value.text)
    decreases |r|
  {
    if |r| == |pre| {
      assert r == pre;
    } else {
      var r0 := r[..|r| - 1];
      assert pre <= r0;
      RunCarries(pre, r0);
      CompleterKnowsItsText(r0);
      StepCarries(CompleteRun(pre).value.text, CompleteRun(r0).value, r[|r| - 1]);
    }
  }

  lemma {:induction false} CloseCarries(x: string, text: string, closers: seq<char>)
    requires CommitsAt(x)
    requires Carries(x, text) && SurveyOf(text).lex == OUTSIDE && SurveyOf(text).open == Some(closers)
    requires CloseAll(text, closers).Some?
    ensures Carries(x, CloseAll(text, closers).value)
    decreases |closers|
  {
    if closers != [] {
      var c := closers[|closers| - 1];
      PruneCarries(x, text, closers);
      TrimSurvey(text);
      OwedAreClosers(text);
      SurveySnoc(DropComma(TrimEnd(text)), c);
      CloseCarries(x, DropComma(TrimEnd(text)) + [c], closers[..|closers| - 1]);
    }
  }

  /** Whatever follows an anchor, completing it keeps the anchor. */
  lemma CompletionCarries(scalar: string -> bool, pre: string, g: Goal, s: string)
    requires Anchored(scalar, pre, g) && pre <= s && Complete(s).Some?
    ensures Carries(CompleteRun(pre).value.text, Complete(s).value)
  {
    var r := Repair(s, false);
    var x := CompleteRun(pre).value.text;
    assert s == pre + s[|pre|..];
    assert Repair(pre + s[|pre|..], false) == pre + Repair(s[|pre|..], false);
    CompleterKnowsItsText(pre);
    RunCarries(pre, r);
    var st := CompleteRun(r).value;
    EndingTheString(s);
    CarriesOn(x, st.text, ClosedText(st));
    CloseCarries(x, ClosedText(st), st.closers);
  }

  lemma CarriesOn(x: string, t: string, u: string)
    requires x != [] && Carries(x, t) && t <= u
    ensures Carries(x, u)
  {
  }

  /** Whatever follows an anchor, a reading of it, repaired or completed, meets the goal. */
  lemma AnchorHolds(scalar: string -> bool, pre: string, g: Goal, s: string)
    requires Anchored(scalar, pre, g) && pre <= s
    ensures ParseWithRepair(scalar, s).Some? ==> ValueHolds(ParseWithRepair(scalar, s).value, g)
    ensures Attempt(scalar, s).Some? ==> ValueHolds(Attempt(scalar, s).value, g)
  {
    if ParseWithRepair(scalar, s).Some? {
      PromiseKept(scalar, pre, s, g);
    }
    if Attempt(scalar, s).Some? {
      CompletionCarries(scalar, pre, g, s);
      var x := CompleteRun(pre).value.text;
      var t := Complete(s).value;
      if x <= t {
        PromiseKept(scalar, x, t, g);
      } else {
        PromiseKept(scalar, Ended(x), t, g);
      }
    }
  }

  // ---------------------------------------------------------------------
  // Which text a recovery was read from.

  /** The attempt the truncation search settles on, or -1. */
  lemma {:induction false} LastValueSource(attempts: seq<Option<Value>>) returns (at: int)
    ensures -1 <= at < |attempts|
    ensures at == -1 ==> LastValue(attempts) == Obj([])
    ensures at >= 0 ==> attempts[at] == Some(LastValue(attempts))
    ensures forall i :: at < i < |attempts| ==> attempts[i].None?
  {
    if attempts == [] {
      at := -1;
    } else if attempts[|attempts| - 1].Some? {
      at := |attempts| - 1;
    } else {
      at := LastValueSource(attempts[..|attempts| - 1]);
    }
  }

  // ---------------------------------------------------------------------
  // The recovery itself.

  method ParseJsonWithRepair(scalar: string -> bool, json: string) returns (v: Option<Value>)
    ensures v == ParseWithRepair(scalar, json)
  {
    v := Parse(scalar, json);
    if v.None? {
      var repaired := RepairJson(json);
      if repaired != json {
        v := Parse(scalar, repaired);
      }
    }
  }

  /** The step shared by the completion and the truncation search. */
  method ReadCompleted(scalar: string -> bool, candidate: string) returns (v: Option<Value>)
    ensures v == Attempt(scalar, candidate)
  {
    var completed := CompletePartialJson(candidate);
    if completed.None? {
      return None;
    }
    v := ParseJsonWithRepair(scalar, completed.value);
  }

  method ReadCandidate(scalar: string -> bool, candidates: seq<string>, n: nat) returns (v: Option<Value>)
    requires n < |candidates|
    ensures v == Attempts(scalar, candidates)[n]
  {
    v := ReadCompleted(scalar, candidates[n]);
  }

  method LastReadable(scalar: string -> bool, candidates: seq<string>) returns (v: Value)
    ensures v == LastValue(Attempts(scalar, candidates))
  {
    var n := |candidates|;
    ghost var attempts := Attempts(scalar, candidates);
    assert attempts[..n] == attempts;
    while n > 0
      invariant 0 <= n <= |candidates|
      invariant LastValue(attempts) == LastValue(attempts[..n])
    {
      n := n - 1;
      LastValueBefore(attempts, n);
      var attempt := ReadCandidate(scalar, candidates, n);
      if attempt.Some? {
        return attempt.value;
      }
    }
    return Obj([]);
  }

  lemma LastValueBefore(attempts: seq<Option<Value>>, n: nat)
    requires n < |attempts|
    ensures LastValue(attempts[..n + 1])
         == if attempts[n].Some? then attempts[n].value else LastValue(attempts[..n])
  {
    assert attempts[..n + 1][..n] == attempts[..n];
  }
}
