/** The Mistral tool-call id normalizer: short alphanumeric ids, remembered in two maps.

    The hash is a parameter.  That the retry loop ends depends on it, so the method is told an attempt
    at which it will find a free id. */
module MistralToolCallIds {
  import opened Text

  const ID_LENGTH: nat := 9

  predicate IsAsciiAlphanumeric(c: char) {
    '0' <= c <= '9' || 'a' <= c <= 'z' || 'A' <= c <= 'Z'
  }

  predicate AllAlphanumeric(s: string) {
    forall i :: 0 <= i < |s| ==> IsAsciiAlphanumeric(s[i])
  }

  function Alphanumerics(s: string): (r: string)
    ensures AllAlphanumeric(r) && |r| <= |s|
    ensures AllAlphanumeric(s) ==> r == s
  {
    if s == "" then ""
    else
      (if IsAsciiAlphanumeric(s[0]) then [s[0]] else "") + Alphanumerics(s[1..])
  }

  function Take(s: string, n: nat): string {
    if |s| <= n then s else s[..n]
  }

  function DeriveId(hash: string -> string, id: string, attempt: nat): (r: string)
    ensures AllAlphanumeric(r) && |r| <= ID_LENGTH
    ensures attempt == 0 && AllAlphanumeric(id) && |id| == ID_LENGTH ==> r == id
  {
    var normalized := Alphanumerics(id);
    if attempt == 0 && |normalized| == ID_LENGTH then normalized
    else
      var base := if normalized == "" then id else normalized;
      var seed := if attempt == 0 then base else base + ":" + Decimal(attempt);
      Take(Alphanumerics(hash(seed)), ID_LENGTH)
  }

  /** The alphanumerics of a text are those of its characters, in order. */
  lemma {:induction false} AlphanumericsOfBoth(a: string, b: string)
    ensures Alphanumerics(a + b) == Alphanumerics(a) + Alphanumerics(b)
  {
    if a == "" {
      assert a + b == b;
    } else {
      assert (a + b)[1..] == a[1..] + b;
      AlphanumericsOfBoth(a[1..], b);
    }
  }

  lemma AlphanumericsOfOne(c: char)
    ensures Alphanumerics([c]) == if IsAsciiAlphanumeric(c) then [c] else ""
  {
    assert [c][1..] == "";
  }

  /** What is hashed at an attempt: the id's alphanumerics, or the id itself when it has none, and from
      the second attempt on the attempt's number. */
  function Seed(id: string, attempt: nat): string {
    (if exists i :: 0 <= i < |id| && IsAsciiAlphanumeric(id[i]) then Alphanumerics(id) else id)
    + if attempt == 0 then "" else ":" + Decimal(attempt)
  }

  lemma {:induction false} SomeAlphanumerics(s: string)
    ensures Alphanumerics(s) != "" <==> exists i :: 0 <= i < |s| && IsAsciiAlphanumeric(s[i])
  {
    if s != "" {
      SomeAlphanumerics(s[1..]);
      if i :| 0 <= i < |s[1..]| && IsAsciiAlphanumeric(s[1..][i]) {
        assert IsAsciiAlphanumeric(s[i + 1]);
      }
      if i :| 1 <= i < |s| && IsAsciiAlphanumeric(s[i]) {
        assert IsAsciiAlphanumeric(s[1..][i - 1]);
      }
    }
  }

  /** Every form but that of a fitting id is as many of the hash's alphanumerics, from the front, as
      there are up to nine. */
  lemma DerivedFromTheHash(hash: string -> string, id: string, attempt: nat)
    requires attempt > 0 || |Alphanumerics(id)| != ID_LENGTH
    ensures var kept := Alphanumerics(hash(Seed(id, attempt)));
            var r := DeriveId(hash, id, attempt);
            r <= kept && |r| == if |kept| < 9 then |kept| else 9
  {
    SomeAlphanumerics(id);
    var base := if Alphanumerics(id) == "" then id else Alphanumerics(id);
    assert base + "" == base;
    assert attempt > 0 ==> base + (":" + Decimal(attempt)) == base + ":" + Decimal(attempt);
  }

  /** Different attempts hash different texts. */
  lemma AttemptsDiffer(id: string, a: nat, b: nat)
    requires a != b
    ensures Seed(id, a) != Seed(id, b)
  {
    var base := Seed(id, 0);
    assert base + "" == base;
    SeedAfter(id, a);
    SeedAfter(id, b);
    if a > 0 && b > 0 {
      DecimalsDiffer(a, b);
    }
  }

  lemma SeedAfter(id: string, attempt: nat)
    ensures |Seed(id, attempt)| >= |Seed(id, 0)|
    ensures attempt > 0 ==> |Seed(id, attempt)| > |Seed(id, 0)|
                            && Seed(id, attempt)[|Seed(id, 0)| + 1..] == Decimal(attempt)
  {
    var base := if exists i :: 0 <= i < |id| && IsAsciiAlphanumeric(id[i]) then Alphanumerics(id) else id;
    assert Seed(id, 0) == base;
  }

  /** Each map undoes the other. */
  predicate Inverse(forward: map<string, string>, backward: map<string, string>) {
    && (forall id :: id in forward ==> forward[id] in backward && backward[forward[id]] == id)
    && (forall candidate :: candidate in backward ==>
          backward[candidate] in forward && forward[backward[candidate]] == candidate)
  }

  predicate Short(forward: map<string, string>) {
    forall id :: id in forward ==> AllAlphanumeric(forward[id]) && |forward[id]| <= ID_LENGTH
  }

  lemma PairingKeepsInverse(forward: map<string, string>, backward: map<string, string>, id: string, candidate: string)
    requires Inverse(forward, backward) && id !in forward
    requires candidate in backward ==> backward[candidate] == id
    ensures Inverse(forward[id := candidate], backward[candidate := id]) && candidate !in backward
  {
    assert candidate !in backward;
  }

  class MistralToolCallIdNormalizer {
    /** The form of an id at an attempt. */
    const derive: (string, nat) -> string
    var idMap: map<string, string>
    var reverseMap: map<string, string>

    ghost predicate Valid()
      reads this
    {
      && Inverse(idMap, reverseMap) && Short(idMap)
      && forall id: string, attempt: nat :: AllAlphanumeric(derive(id, attempt)) && |derive(id, attempt)| <= ID_LENGTH
    }

    constructor (hash: string -> string)
      ensures Valid() && idMap == map[]
      ensures forall id: string, attempt: nat :: derive(id, attempt) == DeriveId(hash, id, attempt)
    {
      derive := (id: string, attempt: nat) => DeriveId(hash, id, attempt);
      idMap, reverseMap := map[], map[];
    }

    predicate Free(id: string, attempt: nat)
      reads this
    {
      var candidate := derive(id, attempt);
      candidate in reverseMap ==> reverseMap[candidate] == id
    }

    method Remember(id: string, candidate: string)
      requires Valid() && id !in idMap && (candidate in reverseMap ==> reverseMap[candidate] == id)
      requires AllAlphanumeric(candidate) && |candidate| <= ID_LENGTH
      modifies this
      ensures Valid() && idMap == old(idMap)[id := candidate] && candidate !in old(reverseMap)
    {
      PairingKeepsInverse(idMap, reverseMap, id, candidate);
      idMap := idMap[id := candidate];
      reverseMap := reverseMap[candidate := id];
    }

    /** An id already seen keeps its short form; a new one gets the first derived form that no other
        id has, and nothing else changes. */
    method Normalize(id: string, ghost enough: nat) returns (r: string)
      requires Valid() && (id in idMap || Free(id, enough))
      modifies this
      ensures Valid() && id in idMap && r == idMap[id]
      ensures id in old(idMap) ==> idMap == old(idMap) && reverseMap == old(reverseMap)
      ensures id !in old(idMap) ==>
        && idMap == old(idMap)[id := r] && r !in old(reverseMap)
        && exists attempt: nat :: old(IsFirstFree(id, attempt, r))
    {
      if id in idMap {
        return idMap[id];
      }
      var attempt;
      attempt, r := FirstFree(id, enough);
      Remember(id, r);
    }

    /** The retry loop. */
    method FirstFree(id: string, ghost enough: nat) returns (attempt: nat, candidate: string)
      requires Valid() && Free(id, enough)
      ensures IsFirstFree(id, attempt, candidate)
      ensures candidate in reverseMap ==> reverseMap[candidate] == id
      ensures AllAlphanumeric(candidate) && |candidate| <= ID_LENGTH
    {
      attempt, candidate := 0, derive(id, 0);
      while candidate in reverseMap && reverseMap[candidate] != id
        invariant attempt <= enough && candidate == derive(id, attempt)
        invariant forall earlier: nat | earlier < attempt :: !Free(id, earlier)
        decreases enough - attempt
      {
        attempt := attempt + 1;
        candidate := derive(id, attempt);
      }
    }

    /** The candidate is derived at this attempt, and at none before it was there a free one. */
    ghost predicate IsFirstFree(id: string, attempt: nat, candidate: string)
      reads this
    {
      && candidate == derive(id, attempt) && Free(id, attempt)
      && forall earlier: nat | earlier < attempt :: !Free(id, earlier)
    }
  }

  /** Two different ids never get the same short form. */
  lemma NeverMerged(forward: map<string, string>, backward: map<string, string>, a: string, b: string)
    requires Inverse(forward, backward) && a in forward && b in forward
    ensures forward[a] == forward[b] <==> a == b
  {
    assert backward[forward[a]] == a && backward[forward[b]] == b;
  }
}
