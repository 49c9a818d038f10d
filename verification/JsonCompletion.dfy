/** Completing a cut-off JSON text: the bracket completer and the truncation search. */
module JsonCompletion {
  import opened Wrappers
  import opened Text
  import opened JsonRepair
  import opened JsonParser

  // ---------------------------------------------------------------------
  // An independent account of a text: where strings are, which brackets are open, and how many
  // commas and colons stand directly inside the outermost container.

  /** `open` lists the closers still owed, outermost first; None once a closer did not match. */
  datatype Survey = Survey(lex: Lex, open: Option<seq<char>>, commas: nat, colons: nat)

  const NOTHING_READ := Survey(OUTSIDE, Some([]), 0, 0)

  function PushOpen(open: Option<seq<char>>, closer: char): Option<seq<char>> {
    match open
    case None => None
    case Some(cs) => Some(cs + [closer])
  }

  function PopOpen(open: Option<seq<char>>, closer: char): Option<seq<char>> {
    match open
    case None => None
    case Some(cs) => if cs != [] && cs[|cs| - 1] == closer then Some(cs[..|cs| - 1]) else None
  }

  predicate AtTop(s: Survey) {
    s.open.Some? && |s.open.value| == 1
  }

  function SurveyStep(s: Survey, c: char): Survey {
    var s' := s.(lex := LexStep(s.lex, c));
    if s.lex.inString then s'
    else if c == '{' then s'.(open := PushOpen(s.open, '}'))
    else if c == '[' then s'.(open := PushOpen(s.open, ']'))
    else if IsCloser(c) then s'.(open := PopOpen(s.open, c))
    else if c == ',' && AtTop(s) then s'.(commas := s.commas + 1)
    else if c == ':' && AtTop(s) then s'.(colons := s.colons + 1)
    else s'
  }

  function SurveyFrom(st: Survey, s: string): Survey {
    if s == [] then st else SurveyStep(SurveyFrom(st, s[..|s| - 1]), s[|s| - 1])
  }

  function SurveyOf(s: string): Survey {
    SurveyFrom(NOTHING_READ, s)
  }

  /** All strings closed and all brackets nested by kind. */
  predicate Balanced(s: string) {
    SurveyOf(s).lex == OUTSIDE && SurveyOf(s).open == Some([])
  }

  lemma SurveySnoc(s: string, c: char)
    ensures SurveyOf(s + [c]) == SurveyStep(SurveyOf(s), c)
  {
    assert (s + [c])[..|s + [c]| - 1] == s;
  }

  lemma {:induction false} SurveyAppend(st: Survey, a: string, b: string)
    ensures SurveyFrom(st, a + b) == SurveyFrom(SurveyFrom(st, a), b)
    decreases |b|
  {
    if b == [] {
      assert a + b == a;
    } else {
      assert (a + b)[..|a + b| - 1] == a + b[..|b| - 1];
      SurveyAppend(st, a, b[..|b| - 1]);
    }
  }

  lemma {:induction false} SurveyLex(st: Survey, s: string)
    ensures SurveyFrom(st, s).lex == LexRun(st.lex, s)
  {
    if s != [] {
      SurveyLex(st, s[..|s| - 1]);
    }
  }

  lemma {:induction false} SurveyGrows(a: string, b: string)
    ensures SurveyOf(a).commas <= SurveyOf(a + b).commas
    ensures SurveyOf(a).colons <= SurveyOf(a + b).colons
    decreases |b|
  {
    if b == [] {
      assert a + b == a;
    } else {
      assert (a + b)[..|a + b| - 1] == a + b[..|b| - 1];
      SurveyGrows(a, b[..|b| - 1]);
    }
  }

  // ---------------------------------------------------------------------
  // The completer.

  predicate EndsWith(s: string, c: char) {
    s != [] && s[|s| - 1] == c
  }

  function DropComma(s: string): (t: string)
    ensures t <= s
  {
    if EndsWith(s, ',') then s[..|s| - 1] else s
  }

  datatype Completer = Completer(text: string, closers: seq<char>, lex: Lex)

  const NOTHING_COPIED := Completer("", [], OUTSIDE)

  function CompleteStep(st: Completer, c: char): Option<Completer> {
    var lex := LexStep(st.lex, c);
    if st.lex.inString then Some(Completer(st.text + [c], st.closers, lex))
    else if c == '{' then Some(Completer(st.text + [c], st.closers + ['}'], lex))
    else if c == '[' then Some(Completer(st.text + [c], st.closers + [']'], lex))
    else if IsCloser(c) then
      if EndsWith(st.closers, c)
      then Some(Completer(DropComma(TrimEnd(st.text)) + [c], st.closers[..|st.closers| - 1], lex))
      else None
    else Some(Completer(st.text + [c], st.closers, lex))
  }

  function CompleteRun(s: string): Option<Completer> {
    if s == [] then Some(NOTHING_COPIED)
    else
      match CompleteRun(s[..|s| - 1])
      case None => None
      case Some(st) => CompleteStep(st, s[|s| - 1])
  }

  /** Append the owed closers, innermost first. */
  function CloseAll(text: string, closers: seq<char>): Option<string>
    decreases |closers|
  {
    if closers == [] then Some(text)
    else
      var t := TrimEnd(text);
      if EndsWith(t, ':') then None
      else CloseAll(DropComma(t) + [closers[|closers| - 1]], closers[..|closers| - 1])
  }

  function ClosedText(st: Completer): string {
    if st.lex.inString then st.text + ['"'] else st.text
  }

  function CompleteRepaired(r: string): Option<string> {
    match CompleteRun(r)
    case None => None
    case Some(st) => CloseAll(ClosedText(st), st.closers)
  }

  function Complete(s: string): Option<string> {
    CompleteRepaired(Repair(s, false))
  }

  lemma CompleteSnoc(s: string, c: char)
    ensures CompleteRun(s + [c]) ==
            match CompleteRun(s) case None => None case Some(st) => CompleteStep(st, c)
  {
    assert (s + [c])[..|s + [c]| - 1] == s;
  }

  /** Trimming text that ends outside a string loses neither brackets nor string state. */
  lemma {:induction false} TrimSurvey(s: string)
    requires SurveyOf(s).lex == OUTSIDE
    ensures var t := DropComma(TrimEnd(s));
            SurveyOf(TrimEnd(s)) == SurveyOf(s)
            && SurveyOf(t).lex == OUTSIDE && SurveyOf(t).open == SurveyOf(s).open
            && SurveyOf(t).commas <= SurveyOf(s).commas && SurveyOf(t).colons == SurveyOf(s).colons
  {
    if s != [] && IsWhitespace(s[|s| - 1]) {
      LexNeverEscapedOutside(s[..|s| - 1]);
      TrimSurvey(s[..|s| - 1]);
    } else if EndsWith(s, ',') {
      LexNeverEscapedOutside(s[..|s| - 1]);
    }
  }

  lemma {:induction false} LexNeverEscapedOutside(s: string)
    ensures !SurveyOf(s).lex.inString ==> SurveyOf(s).lex == OUTSIDE
  {
    if s != [] {
      LexNeverEscapedOutside(s[..|s| - 1]);
    }
  }

  /** At every moment the completer's own flags and stack are the true account of what it has
      written, and it has written no top-level comma or colon that was not read. */
  lemma {:induction false} CompleterKnowsItsText(r: string)
    requires CompleteRun(r).Some?
    ensures var st := CompleteRun(r).value;
            SurveyOf(st.text).lex == st.lex && SurveyOf(st.text).open == Some(st.closers)
            && st.lex == SurveyOf(r).lex && SurveyOf(r).open == Some(st.closers)
            && SurveyOf(st.text).commas <= SurveyOf(r).commas
            && SurveyOf(st.text).colons <= SurveyOf(r).colons
  {
    if r != [] {
      var r0 := r[..|r| - 1];
      CompleterKnowsItsText(r0);
      StepKnowsItsText(CompleteRun(r0).value, SurveyOf(r0), r[|r| - 1]);
    }
  }

  /** The completer's own account fits what it has written and what it has read. */
  predicate Knows(st: Completer, read: Survey) {
    var written := SurveyOf(st.text);
    && written.lex == st.lex == read.lex && written.open == read.open == Some(st.closers)
    && written.commas <= read.commas && written.colons <= read.colons
  }

  lemma StepKnowsItsText(st: Completer, read: Survey, c: char)
    requires Knows(st, read) && CompleteStep(st, c).Some?
    ensures Knows(CompleteStep(st, c).value, SurveyStep(read, c))
  {
    if !st.lex.inString && IsCloser(c) {
      CloserKnowsItsText(st, read, c);
    } else {
      SurveySnoc(st.text, c);
      CopyKnowsItsText(st, SurveyOf(st.text), read, c);
    }
  }

  lemma CopyKnowsItsText(st: Completer, written: Survey, read: Survey, c: char)
    requires st.lex.inString || !IsCloser(c)
    requires written.lex == st.lex == read.lex && written.open == read.open == Some(st.closers)
    requires written.commas <= read.commas && written.colons <= read.colons
    ensures CompleteStep(st, c).Some?
    ensures var next := CompleteStep(st, c).value;
            var written', read' := SurveyStep(written, c), SurveyStep(read, c);
            && next.text == st.text + [c]
            && written'.lex == next.lex == read'.lex && written'.open == read'.open == Some(next.closers)
            && written'.commas <= read'.commas && written'.colons <= read'.colons
  {
  }

  lemma CloserKnowsItsText(st: Completer, read: Survey, c: char)
    requires Knows(st, read) && !st.lex.inString && IsCloser(c) && CompleteStep(st, c).Some?
    ensures Knows(CompleteStep(st, c).value, SurveyStep(read, c))
  {
    LexNeverEscapedOutside(st.text);
    TrimSurvey(st.text);
    SurveySnoc(DropComma(TrimEnd(st.text)), c);
  }

  lemma {:induction false} CloseAllBalances(text: string, closers: seq<char>)
    requires SurveyOf(text).lex == OUTSIDE && SurveyOf(text).open == Some(closers)
    requires CloseAll(text, closers).Some?
    ensures Balanced(CloseAll(text, closers).value)
    ensures SurveyOf(CloseAll(text, closers).value).commas <= SurveyOf(text).commas
    ensures SurveyOf(CloseAll(text, closers).value).colons <= SurveyOf(text).colons
    ensures forall i :: 0 <= i < |closers| ==> IsCloser(closers[i])
    decreases |closers|
  {
    OwedAreClosers(text);
    if closers != [] {
      TrimSurvey(text);
      var t := DropComma(TrimEnd(text));
      var c := closers[|closers| - 1];
      SurveySnoc(t, c);
      CloseAllBalances(t + [c], closers[..|closers| - 1]);
    }
  }

  lemma {:induction false} OwedAreClosers(s: string)
    requires SurveyOf(s).open.Some?
    ensures forall i :: 0 <= i < |SurveyOf(s).open.value| ==> IsCloser(SurveyOf(s).open.value[i])
  {
    if s != [] {
      OwedAreClosers(s[..|s| - 1]);
    }
  }

  /** The text is repaired before it is completed, so the scanner is never mid-escape at its end. */
  lemma RepairedNeverEndsMidEscape(s: string)
    ensures !SurveyOf(Repair(s, false)).lex.escaped
  {
    ScannerTracksRepairer(s, false);
    SurveyLex(NOTHING_READ, Repair(s, false));
  }

  /** Closing an open string brings the scanner outside and leaves the owed closers alone. */
  lemma EndingTheString(s: string)
    requires CompleteRun(Repair(s, false)).Some?
    ensures var st := CompleteRun(Repair(s, false)).value;
            var sv := SurveyOf(ClosedText(st));
            st.text <= ClosedText(st)
            && sv.lex == OUTSIDE && sv.open == Some(st.closers)
            && sv.commas <= SurveyOf(Repair(s, false)).commas
            && sv.colons <= SurveyOf(Repair(s, false)).colons
  {
    var r := Repair(s, false);
    var st := CompleteRun(r).value;
    CompleterKnowsItsText(r);
    RepairedNeverEndsMidEscape(s);
    LexNeverEscapedOutside(st.text);
    SurveySnoc(st.text, '"');
  }

  /** Whenever the completer returns a text, that text has all strings closed and all brackets
      nested by kind, and no more top-level commas and colons than the repaired input. */
  lemma CompletedTextIsBalanced(s: string)
    requires Complete(s).Some?
    ensures Balanced(Complete(s).value)
    ensures SurveyOf(Complete(s).value).commas <= SurveyOf(Repair(s, false)).commas
    ensures SurveyOf(Complete(s).value).colons <= SurveyOf(Repair(s, false)).colons
  {
    var st := CompleteRun(Repair(s, false)).value;
    EndingTheString(s);
    CloseAllBalances(ClosedText(st), st.closers);
  }

  // ---------------------------------------------------------------------
  // The completer only deletes, and only commas and white space outside strings.

  /** `t` is `r` without some of its commas and white space that stand outside strings. */
  predicate Pruned(r: string, t: string)
    decreases |r|
  {
    if r == [] then t == []
    else
      var r0 := r[..|r| - 1];
      var c := r[|r| - 1];
      || (EndsWith(t, c) && Pruned(r0, t[..|t| - 1]))
      || (!LexRun(OUTSIDE, r0).inString && (c == ',' || IsWhitespace(c)) && Pruned(r0, t))
  }

  lemma {:induction false} PrunedKeepsLex(r: string, t: string)
    requires Pruned(r, t)
    ensures LexRun(OUTSIDE, r).inString == LexRun(OUTSIDE, t).inString
    ensures LexRun(OUTSIDE, r).inString ==> LexRun(OUTSIDE, r) == LexRun(OUTSIDE, t)
    decreases |r|
  {
    if r != [] {
      var r0 := r[..|r| - 1];
      if EndsWith(t, r[|r| - 1]) && Pruned(r0, t[..|t| - 1]) {
        PrunedKeepsLex(r0, t[..|t| - 1]);
      } else {
        PrunedKeepsLex(r0, t);
      }
    }
  }

  lemma {:induction false} PruneLast(r: string, t: string)
    requires Pruned(r, t) && t != [] && (t[|t| - 1] == ',' || IsWhitespace(t[|t| - 1]))
    requires !LexRun(OUTSIDE, t[..|t| - 1]).inString
    ensures Pruned(r, t[..|t| - 1])
    decreases |r|
  {
    var r0 := r[..|r| - 1];
    if EndsWith(t, r[|r| - 1]) && Pruned(r0, t[..|t| - 1]) {
      PrunedKeepsLex(r0, t[..|t| - 1]);
    } else {
      PruneLast(r0, t);
    }
  }

  lemma {:induction false} PruneTrim(r: string, t: string)
    requires Pruned(r, t) && !LexRun(OUTSIDE, t).inString
    ensures Pruned(r, TrimEnd(t)) && Pruned(r, DropComma(TrimEnd(t)))
    decreases |t|
  {
    if t != [] && (IsWhitespace(t[|t| - 1]) || t[|t| - 1] == ',') {
      PruneLast(r, t);
      if IsWhitespace(t[|t| - 1]) {
        PruneTrim(r, t[..|t| - 1]);
      }
    }
  }

  lemma PrunedSnoc(r: string, t: string, c: char)
    requires Pruned(r, t)
    ensures Pruned(r + [c], t + [c])
  {
    assert (r + [c])[..|r + [c]| - 1] == r && (t + [c])[..|t + [c]| - 1] == t;
  }

  lemma {:induction false} CompleterOnlyPrunes(r: string)
    requires CompleteRun(r).Some?
    ensures Pruned(r, CompleteRun(r).value.text)
  {
    if r != [] {
      var r0 := r[..|r| - 1];
      var c := r[|r| - 1];
      assert r == r0 + [c];
      CompleterOnlyPrunes(r0);
      StepOnlyPrunes(r0, c);
    }
  }

  lemma StepOnlyPrunes(r: string, c: char)
    requires CompleteRun(r).Some? && CompleteStep(CompleteRun(r).value, c).Some?
    requires Pruned(r, CompleteRun(r).value.text)
    ensures Pruned(r + [c], CompleteStep(CompleteRun(r).value, c).value.text)
  {
    var st := CompleteRun(r).value;
    if !st.lex.inString && IsCloser(c) {
      CompleterKnowsItsText(r);
      SurveyLex(NOTHING_READ, st.text);
      TrimmedPrunes(r, st.text, c);
    } else {
      PrunedSnoc(r, st.text, c);
    }
  }

  lemma TrimmedPrunes(r: string, text: string, c: char)
    requires Pruned(r, text) && !LexRun(OUTSIDE, text).inString
    ensures Pruned(r + [c], DropComma(TrimEnd(text)) + [c])
  {
    PruneTrim(r, text);
    PrunedSnoc(r, DropComma(TrimEnd(text)), c);
  }

  function Reversed(s: string): string {
    if s == [] then [] else [s[|s| - 1]] + Reversed(s[..|s| - 1])
  }

  /** Once a closer has been appended there is nothing left to trim. */
  lemma {:induction false} CloseAllAfterCloser(text: string, closers: seq<char>)
    requires text != [] && IsCloser(text[|text| - 1])
    requires forall i :: 0 <= i < |closers| ==> IsCloser(closers[i])
    ensures CloseAll(text, closers) == Some(text + Reversed(closers))
    decreases |closers|
  {
    if closers == [] {
      assert text + [] == text;
    } else {
      var c := closers[|closers| - 1];
      var rest := closers[..|closers| - 1];
      assert TrimEnd(text) == text && DropComma(text) == text && !EndsWith(text, ':');
      CloseAllAfterCloser(text + [c], rest);
      AppendAssociates(text, [c], Reversed(rest));
    }
  }

  lemma CloseAllAppends(text: string, closers: seq<char>)
    requires CloseAll(text, closers).Some?
    requires forall i :: 0 <= i < |closers| ==> IsCloser(closers[i])
    ensures CloseAll(text, closers).value ==
            (if closers == [] then text else DropComma(TrimEnd(text))) + Reversed(closers)
  {
    if closers == [] {
      assert text + [] == text;
    } else {
      var kept := DropComma(TrimEnd(text));
      var c := closers[|closers| - 1];
      var rest := closers[..|closers| - 1];
      CloseAllAfterCloser(kept + [c], rest);
      AppendAssociates(kept, [c], Reversed(rest));
    }
  }

  /** A completed text is the repaired input, with an unclosed string closed, pruned of commas and
      white space outside strings, followed by the owed closers, innermost first. */
  lemma CompletionOnlyPrunesAndCloses(s: string) returns (kept: string)
    requires Complete(s).Some?
    ensures var r := Repair(s, false);
            SurveyOf(r).open.Some?
            && Pruned(if EndsInString(s, false) then r + ['"'] else r, kept)
            && Complete(s).value == kept + Reversed(SurveyOf(r).open.value)
  {
    var r := Repair(s, false);
    var st := CompleteRun(r).value;
    CompleterKnowsItsText(r);
    CompleterOnlyPrunes(r);
    ScannerTracksRepairer(s, false);
    SurveyLex(NOTHING_READ, r);
    OwedAreClosers(r);
    PrunedSnoc(r, st.text, '"');
    var whole := if EndsInString(s, false) then r + ['"'] else r;
    var text := ClosedText(st);
    assert Pruned(whole, text);
    CloseAllAppends(text, st.closers);
    if st.closers != [] {
      SurveySnoc(st.text, '"');
      SurveyLex(NOTHING_READ, text);
      PruneTrim(whole, text);
      kept := DropComma(TrimEnd(text));
    } else {
      kept := text;
    }
  }

  // ---------------------------------------------------------------------
  // A comma before a closer is forgiven.

  lemma {:induction false} SameCompleter(a: string, b: string, rest: string)
    requires CompleteRun(a) == CompleteRun(b)
    ensures CompleteRun(a + rest) == CompleteRun(b + rest)
    decreases |rest|
  {
    if rest == [] {
      assert a + rest == a && b + rest == b;
    } else {
      var init, last := rest[..|rest| - 1], rest[|rest| - 1];
      SameCompleter(a, b, init);
      assert a + rest == (a + init) + [last] && b + rest == (b + init) + [last];
      CompleteSnoc(a + init, last);
      CompleteSnoc(b + init, last);
    }
  }

  /** A text with a comma right before a closer, outside strings, is completed like the text without it. */
  lemma CommaBeforeCloserIsForgiven(x: string, closer: char, rest: string)
    requires IsCloser(closer) && CompleteRun(x).Some?
    requires var st := CompleteRun(x).value;
             !st.lex.inString && TrimEnd(st.text) == st.text && !EndsWith(st.text, ',')
    ensures CompleteRepaired(x + [',', closer] + rest) == CompleteRepaired(x + [closer] + rest)
  {
    assert x + [',', closer] == (x + [',']) + [closer];
    CompleteSnoc(x, ',');
    CompleteSnoc(x + [','], closer);
    CompleteSnoc(x, closer);
    CommaStep(CompleteRun(x).value, closer);
    SameCompleter(x + [',', closer], x + [closer], rest);
  }

  lemma CommaStep(st: Completer, closer: char)
    requires IsCloser(closer) && !st.lex.inString && TrimEnd(st.text) == st.text && !EndsWith(st.text, ',')
    ensures CompleteStep(st, ',').Some?
    ensures CompleteStep(CompleteStep(st, ',').value, closer) == CompleteStep(st, closer)
  {
    assert TrimEnd(st.text + [',']) == st.text + [','] && DropComma(st.text + [',']) == st.text;
  }

  // ---------------------------------------------------------------------
  // The truncation search.

  /** Remember a cut unless it is the one remembered last. */
  function AddCut(cuts: seq<nat>, cut: nat): seq<nat> {
    if cuts != [] && cuts[|cuts| - 1] == cut then cuts else cuts + [cut]
  }

  /** Where a repaired text may be truncated: after an opening bracket and before a comma. */
  function Cuts(r: string): seq<nat> {
    if r == [] then []
    else
      var r0 := r[..|r| - 1];
      var c := r[|r| - 1];
      if LexRun(OUTSIDE, r0).inString then Cuts(r0)
      else if c == '{' || c == '[' then AddCut(Cuts(r0), |r|)
      else if c == ',' then AddCut(Cuts(r0), |r| - 1)
      else Cuts(r0)
  }

  predicate Increasing(cuts: seq<nat>) {
    forall i, j :: 0 <= i < j < |cuts| ==> cuts[i] < cuts[j]
  }

  predicate OutsideStrings(r: string, cuts: seq<nat>) {
    forall cut :: cut in cuts ==> cut <= |r| && LexRun(OUTSIDE, r[..cut]) == OUTSIDE
  }

  lemma AddCutKeepsOrder(cuts: seq<nat>, cut: nat)
    requires Increasing(cuts) && forall c :: c in cuts ==> c <= cut
    ensures Increasing(AddCut(cuts, cut))
    ensures forall c :: c in AddCut(cuts, cut) <==> c in cuts || c == cut
  {
    if cuts != [] {
      assert cuts[|cuts| - 1] in cuts;
    }
  }

  /** Cuts are strictly increasing, in range and never inside a string. */
  lemma {:induction false} CutsAreOrderedAndOutsideStrings(r: string)
    ensures Increasing(Cuts(r)) && OutsideStrings(r, Cuts(r))
  {
    if r != [] {
      var r0 := r[..|r| - 1];
      CutsAreOrderedAndOutsideStrings(r0);
      LexRunOutside(r0);
      forall cut | cut in Cuts(r0)
        ensures r[..cut] == r0[..cut]
      {
      }
      AddCutKeepsOrder(Cuts(r0), |r0|);
      AddCutKeepsOrder(Cuts(r0), |r|);
      assert r[..|r|] == r && r[..|r0|] == r0;
    }
  }

  lemma CutsIncrease(r: string, i: nat, j: nat)
    requires i < j < |Cuts(r)|
    ensures Cuts(r)[i] < Cuts(r)[j] <= |r|
  {
    CutsAreOrderedAndOutsideStrings(r);
    CutsInRange(r);
  }

  lemma CutsInRange(r: string)
    ensures forall i :: 0 <= i < |Cuts(r)| ==> Cuts(r)[i] <= |r|
  {
    CutsAreOrderedAndOutsideStrings(r);
    assert forall i :: 0 <= i < |Cuts(r)| ==> Cuts(r)[i] in Cuts(r);
  }

  /** The truncation candidates of a repaired text, shortest first. */
  function Candidates(r: string): (cs: seq<string>)
    ensures |cs| == |Cuts(r)|
    ensures forall i :: 0 <= i < |cs| ==> Cuts(r)[i] <= |r| && cs[i] == r[..Cuts(r)[i]]
  {
    CutsInRange(r);
    seq(|Cuts(r)|, i requires 0 <= i < |Cuts(r)| => r[..Cuts(r)[i]])
  }

  predicate CandidatesAt(r: string, cuts: seq<nat>, candidates: seq<string>) {
    |candidates| == |cuts|
    && forall i :: 0 <= i < |cuts| ==> cuts[i] <= |r| && candidates[i] == r[..cuts[i]]
  }

  lemma {:induction false} LexRunOutside(s: string)
    ensures !LexRun(OUTSIDE, s).inString ==> LexRun(OUTSIDE, s) == OUTSIDE
  {
    if s != [] {
      LexRunOutside(s[..|s| - 1]);
    }
  }

  lemma {:induction false} CutsExtend(a: string, b: string)
    ensures Cuts(a) <= Cuts(a + b)
    decreases |b|
  {
    if b == [] {
      assert a + b == a;
    } else {
      assert (a + b)[..|a + b| - 1] == a + b[..|b| - 1];
      CutsExtend(a, b[..|b| - 1]);
    }
  }

  /** Every opening bracket and every comma outside strings is a cut. */
  lemma CutsAreComplete(r: string, i: nat)
    requires i < |r| && LexRun(OUTSIDE, r[..i]) == OUTSIDE
    ensures r[i] == '{' || r[i] == '[' ==> i + 1 in Cuts(r)
    ensures r[i] == ',' ==> i in Cuts(r)
  {
    var head := r[..i + 1];
    assert head[..i] == r[..i] && r == head + r[i + 1..];
    CutsExtend(head, r[i + 1..]);
    var cuts := Cuts(head);
    if r[i] == ',' || r[i] == '{' || r[i] == '[' {
      assert cuts == AddCut(Cuts(r[..i]), if r[i] == ',' then i else i + 1);
      assert Cuts(r)[|cuts| - 1] == cuts[|cuts| - 1];
    }
  }

  // ---------------------------------------------------------------------
  // The loops.

  method TrimTrailingJsonWhitespace(value: string) returns (trimmed: string)
    ensures trimmed == TrimEnd(value)
  {
    trimmed := value;
    while trimmed != [] && IsWhitespace(trimmed[|trimmed| - 1])
      invariant TrimEnd(trimmed) == TrimEnd(value)
      decreases |trimmed|
    {
      trimmed := trimmed[..|trimmed| - 1];
    }
  }

  /** The copying loop: None when a closer does not match the bracket it should close. */
  method CopyBalanced(repaired: string) returns (copied: Option<Completer>)
    ensures copied == CompleteRun(repaired)
  {
    var text := "";
    var closers: seq<char> := [];
    var lex := OUTSIDE;
    for i := 0 to |repaired|
      invariant CompleteRun(repaired[..i]) == Some(Completer(text, closers, lex))
    {
      assert repaired[..i + 1] == repaired[..i] + [repaired[i]];
      CompleteSnoc(repaired[..i], repaired[i]);
      var step := CopyOne(text, closers, lex, repaired[i]);
      if step.None? {
        CompleteFails(repaired[..i + 1], repaired);
        return None;
      }
      text, closers, lex := step.value.text, step.value.closers, step.value.lex;
    }
    assert repaired[..|repaired|] == repaired;
    copied := Some(Completer(text, closers, lex));
  }

  /** One round of the copying loop. */
  method CopyOne(before: string, open: seq<char>, flags: Lex, ch: char) returns (copied: Option<Completer>)
    ensures copied == CompleteStep(Completer(before, open, flags), ch)
  {
    var text, closers, lex := before, open, LexStep(flags, ch);
    if flags.inString || !(ch == '{' || ch == '[' || IsCloser(ch)) {
      text := text + [ch];
    } else if ch == '{' || ch == '[' {
      text := text + [ch];
      closers := closers + [if ch == '{' then '}' else ']'];
    } else {
      text := TrimTrailingJsonWhitespace(text);
      if EndsWith(text, ',') {
        text := text[..|text| - 1];
      }
      text := text + [ch];
      if !EndsWith(closers, ch) {
        return None;
      }
      closers := closers[..|closers| - 1];
    }
    copied := Some(Completer(text, closers, lex));
  }

  /** `complete_partial_json`: None when a closer does not match or a key lacks its value. */
  method CompletePartialJson(partial: string) returns (completed: Option<string>)
    ensures completed == Complete(partial)
    ensures completed.Some? ==> Balanced(completed.value)
  {
    var repaired := RepairJson(partial);
    var copied := CopyBalanced(repaired);
    if copied.None? {
      return None;
    }
    var text, closers := copied.value.text, copied.value.closers;
    if copied.value.lex.inString {
      text := text + ['"'];
    }
    completed := AppendClosers(text, closers);
    if completed.Some? {
      CompletedTextIsBalanced(partial);
    }
  }

  lemma OneCloser(text: string, closers: seq<char>)
    requires closers != []
    ensures var t := TrimEnd(text);
            CloseAll(text, closers)
            == if EndsWith(t, ':') then None
               else CloseAll(DropComma(t) + [closers[|closers| - 1]], closers[..|closers| - 1])
  {
  }

  /** Append the owed closers, innermost first; None when a key lacks its value. */
  method AppendClosers(copied: string, owed: seq<char>) returns (completed: Option<string>)
    ensures completed == CloseAll(copied, owed)
  {
    var text, closers := copied, owed;
    ghost var goal := CloseAll(copied, owed);
    while closers != []
      invariant CloseAll(text, closers) == goal
      decreases |closers|
    {
      OneCloser(text, closers);
      var closer := closers[|closers| - 1];
      closers := closers[..|closers| - 1];
      text := TrimTrailingJsonWhitespace(text);
      if EndsWith(text, ':') {
        return None;
      }
      if EndsWith(text, ',') {
        text := text[..|text| - 1];
      }
      text := text + [closer];
    }
    completed := Some(text);
  }

  lemma {:induction false} CompleteFails(s: string, t: string)
    requires s <= t && CompleteRun(s).None?
    ensures CompleteRun(t).None?
    decreases |t|
  {
    if |s| == |t| {
      assert s == t;
    } else {
      assert s <= t[..|t| - 1];
      CompleteFails(s, t[..|t| - 1]);
    }
  }

  lemma CutsSnoc(s: string, c: char)
    ensures Cuts(s + [c]) ==
            if LexRun(OUTSIDE, s).inString then Cuts(s)
            else if c == '{' || c == '[' then AddCut(Cuts(s), |s| + 1)
            else if c == ',' then AddCut(Cuts(s), |s|)
            else Cuts(s)
    ensures LexRun(OUTSIDE, s + [c]) == LexStep(LexRun(OUTSIDE, s), c)
  {
    assert (s + [c])[..|s + [c]| - 1] == s;
  }

  function LastCut(cuts: seq<nat>): Option<nat> {
    if cuts == [] then None else Some(cuts[|cuts| - 1])
  }

  lemma CandidatesAreKnown(r: string, candidates: seq<string>)
    requires CandidatesAt(r, Cuts(r), candidates)
    ensures candidates == Candidates(r)
  {
  }

  /** `truncation_candidates`: the repaired text cut at every place of `Cuts`. */
  method TruncationCandidates(partial: string) returns (candidates: seq<string>)
    ensures candidates == Candidates(Repair(partial, false))
  {
    var repaired := RepairJson(partial);
    candidates := CandidatesOfRepaired(repaired);
    CandidatesAreKnown(repaired, candidates);
  }

  method CandidatesOfRepaired(repaired: string) returns (candidates: seq<string>)
    ensures CandidatesAt(repaired, Cuts(repaired), candidates)
  {
    candidates := [];
    var last: Option<nat> := None;
    var lex := OUTSIDE;
    for i := 0 to |repaired|
      invariant lex == LexRun(OUTSIDE, repaired[..i])
      invariant last == LastCut(Cuts(repaired[..i]))
      invariant CandidatesAt(repaired, Cuts(repaired[..i]), candidates)
    {
      var ch := repaired[i];
      assert repaired[..i + 1] == repaired[..i] + [ch];
      CutsSnoc(repaired[..i], ch);
      var wasInString := lex.inString;
      lex := LexStep(lex, ch);
      if wasInString {
        continue;
      }
      if ch == '{' || ch == '[' {
        if last != Some(i + 1) {
          candidates := candidates + [repaired[..i + 1]];
          last := Some(i + 1);
        }
      } else if ch == ',' {
        if last != Some(i) {
          candidates := candidates + [repaired[..i]];
          last := Some(i);
        }
      }
    }
    assert repaired[..|repaired|] == repaired;
  }
}
