/** `cleanString` of packages/rivian/src/envelope.ts: what PostgreSQL's JSONB refuses, taken out of
    one string of UTF-16 code units. */
module CleanText {
  import opened Collections

  type Unit = x: int | 0 <= x < 0x10000

  type Text = seq<Unit>

  const NUL: Unit := 0
  const REPLACEMENT: Unit := 0xFFFD

  predicate IsHigh(u: Unit) { 0xD800 <= u <= 0xDBFF }

  predicate IsLow(u: Unit) { 0xDC00 <= u <= 0xDFFF }

  /** A high surrogate with no low one after it, or a low one with no high one before it. */
  predicate IsLone(s: Text, i: nat)
    requires i < |s|
  {
    || (IsHigh(s[i]) && !(i + 1 < |s| && IsLow(s[i + 1])))
    || (IsLow(s[i]) && !(i > 0 && IsHigh(s[i - 1])))
  }

  function ReplaceLone(s: Text): Text {
    seq(|s|, i requires 0 <= i < |s| => if IsLone(s, i) then REPLACEMENT else s[i])
  }

  function DropNuls(s: Text): Text {
    if s == [] then [] else (if s[0] == NUL then [] else [s[0]]) + DropNuls(s[1..])
  }

  /** `cleanString`: surrogates first, then NUL. */
  function CleanString(s: Text): Text {
    DropNuls(ReplaceLone(s))
  }

  // ----- what a string says --------------------------------------------------------------

  /** A string read from left to right: pairs, halves of pairs, NULs and the rest. */
  datatype Token = Pair(high: Unit, low: Unit) | Half(u: Unit) | Nothing | Letter(u: Unit)

  function Tokens(s: Text): seq<Token> {
    if s == [] then []
    else if IsHigh(s[0]) && |s| > 1 && IsLow(s[1]) then [Pair(s[0], s[1])] + Tokens(s[2..])
    else if IsHigh(s[0]) || IsLow(s[0]) then [Half(s[0])] + Tokens(s[1..])
    else if s[0] == NUL then [Nothing] + Tokens(s[1..])
    else [Letter(s[0])] + Tokens(s[1..])
  }

  /** What each token becomes: pairs and letters stay, a half is replaced, a NUL goes. */
  function Cleaned(ts: seq<Token>): seq<Token> {
    if ts == [] then []
    else
      (match ts[0]
       case Half(_) => [Letter(REPLACEMENT)]
       case Nothing => []
       case t => [t]) + Cleaned(ts[1..])
  }

  function Written(ts: seq<Token>): Text {
    if ts == [] then []
    else
      (match ts[0]
       case Pair(h, l) => [h, l]
       case Half(u) => [u]
       case Nothing => [NUL]
       case Letter(u) => [u]) + Written(ts[1..])
  }

  lemma WrittenOne(t: Token, ts: seq<Token>)
    ensures Written([t] + ts) == Written([t]) + Written(ts)
  {
    assert ([t] + ts)[1..] == ts;
    assert [t][1..] == [];
  }

  /** The token at the front of `s`, and how many units it takes. */
  function Front(s: Text): (r: (Token, nat))
    requires s != []
    ensures 0 < r.1 <= |s|
  {
    if IsHigh(s[0]) && |s| > 1 && IsLow(s[1]) then (Pair(s[0], s[1]), 2)
    else if IsHigh(s[0]) || IsLow(s[0]) then (Half(s[0]), 1)
    else if s[0] == NUL then (Nothing, 1)
    else (Letter(s[0]), 1)
  }

  lemma TokensFront(s: Text)
    requires s != []
    ensures Tokens(s) == [Front(s).0] + Tokens(s[Front(s).1..])
    ensures Written([Front(s).0]) == s[..Front(s).1]
  {
    assert [Front(s).0][1..] == [];
  }

  /** Reading loses nothing. */
  lemma {:induction false} WrittenTokens(s: Text)
    ensures Written(Tokens(s)) == s
    decreases |s|
  {
    if s != [] {
      var (t, k) := Front(s);
      WrittenTokens(s[k..]);
      TokensFront(s);
      WrittenOne(t, Tokens(s[k..]));
      assert s == s[..k] + s[k..];
    }
  }

  /** Whether a half is lone is settled by what is next to it; a suffix that does not split a pair
      has the same halves. */
  lemma ReplaceSuffix(s: Text, k: nat)
    requires k <= |s| && !(0 < k < |s| && IsHigh(s[k - 1]) && IsLow(s[k]))
    ensures ReplaceLone(s[k..]) == ReplaceLone(s)[k..]
  {
    forall i | 0 <= i < |s| - k ensures IsLone(s[k..], i) == IsLone(s, k + i) {
      assert s[k..][i] == s[k + i];
    }
  }

  lemma {:induction false} DropNulsAppend(a: Text, b: Text)
    ensures DropNuls(a + b) == DropNuls(a) + DropNuls(b)
  {
    if a == [] {
      assert a + b == b;
    } else {
      assert (a + b)[1..] == a[1..] + b;
      DropNulsAppend(a[1..], b);
    }
  }

  lemma CleanSuffix(s: Text, k: nat)
    requires k <= |s| && !(0 < k < |s| && IsHigh(s[k - 1]) && IsLow(s[k]))
    ensures CleanString(s) == DropNuls(ReplaceLone(s)[..k]) + CleanString(s[k..])
  {
    ReplaceSuffix(s, k);
    DropNulsAppend(ReplaceLone(s)[..k], ReplaceLone(s)[k..]);
    assert ReplaceLone(s) == ReplaceLone(s)[..k] + ReplaceLone(s)[k..];
  }

  /** CLEANING IS TOKEN BY TOKEN: every pair stays and in place, every half becomes U+FFFD, every NUL
      goes, and nothing else is touched. */
  lemma {:induction false} CleanIsByToken(s: Text)
    ensures CleanString(s) == Written(Cleaned(Tokens(s)))
    decreases |s|
  {
    if s == [] {
    } else if IsHigh(s[0]) && |s| > 1 && IsLow(s[1]) {
      CleanSuffix(s, 2);
      CleanIsByToken(s[2..]);
      assert ReplaceLone(s)[..2] == [s[0], s[1]];
      assert DropNuls([s[0], s[1]]) == [s[0], s[1]] by {
        assert [s[0], s[1]][1..] == [s[1]];
        assert DropNuls([s[1]]) == [s[1]] + DropNuls([s[1]][1..]);
      }
      assert Tokens(s)[1..] == Tokens(s[2..]);
      WrittenOne(Pair(s[0], s[1]), Cleaned(Tokens(s[2..])));
    } else {
      CleanSuffix(s, 1);
      CleanIsByToken(s[1..]);
      assert ReplaceLone(s)[..1] == [ReplaceLone(s)[0]];
      assert Tokens(s)[1..] == Tokens(s[1..]);
      if Tokens(s)[0].Nothing? {
        assert [] + Cleaned(Tokens(s[1..])) == Cleaned(Tokens(s[1..]));
      } else {
        WrittenOne(Letter(ReplaceLone(s)[0]), Cleaned(Tokens(s[1..])));
      }
    }
  }

  // ----- what a clean string is ----------------------------------------------------------

  /** What JSONB accepts: no NUL and no half of a pair. */
  ghost predicate Storable(s: Text) {
    forall i | 0 <= i < |s| :: s[i] != NUL && !IsLone(s, i)
  }

  predicate IsCleanToken(t: Token) {
    match t
    case Pair(h, l) => IsHigh(h) && IsLow(l)
    case Letter(u) => !IsHigh(u) && !IsLow(u) && u != NUL
    case _ => false
  }

  lemma {:induction false} CleanedAreClean(s: Text)
    ensures forall t | t in Cleaned(Tokens(s)) :: IsCleanToken(t)
    decreases |s|
  {
    if s != [] {
      var k := if IsHigh(s[0]) && |s| > 1 && IsLow(s[1]) then 2 else 1;
      CleanedAreClean(s[k..]);
      assert Tokens(s)[1..] == Tokens(s[k..]);
    }
  }

  /** Clean tokens, written and read again, are the same, and cleaning them changes nothing. */
  lemma {:induction false} CleanTokensStay(ts: seq<Token>)
    requires forall t | t in ts :: IsCleanToken(t)
    ensures Tokens(Written(ts)) == ts && Cleaned(ts) == ts
  {
    if ts != [] {
      var s, rest := Written(ts), Written(ts[1..]);
      CleanTokensStay(ts[1..]);
      assert ts == [ts[0]] + ts[1..];
      assert IsCleanToken(ts[0]);
      if ts[0].Pair? {
        assert s == [ts[0].high, ts[0].low] + rest;
        assert s[2..] == rest;
      } else {
        assert s == [ts[0].u] + rest;
        assert s[1..] == rest;
      }
    }
  }

  /** NO PAIR IS MADE OR BROKEN: what the cleaned string says is what the string said, cleaned. */
  lemma CleanSaysTheSame(s: Text)
    ensures Tokens(CleanString(s)) == Cleaned(Tokens(s))
  {
    CleanIsByToken(s);
    CleanedAreClean(s);
    CleanTokensStay(Cleaned(Tokens(s)));
  }

  lemma IsLoneSuffix(s: Text, k: nat, i: nat)
    requires k <= i < |s| && !(0 < k < |s| && IsHigh(s[k - 1]) && IsLow(s[k]))
    ensures IsLone(s, i) == IsLone(s[k..], i - k)
  {
  }

  lemma {:induction false} WrittenIsStorable(ts: seq<Token>)
    requires forall t | t in ts :: IsCleanToken(t)
    ensures Storable(Written(ts))
  {
    if ts != [] {
      var s, rest := Written(ts), Written(ts[1..]);
      WrittenIsStorable(ts[1..]);
      var k := if ts[0].Pair? then 2 else 1;
      assert ts[0] in ts && s == (if ts[0].Pair? then [ts[0].high, ts[0].low] else [ts[0].u]) + rest;
      assert s[k..] == rest;
      forall i | 0 <= i < |s| ensures s[i] != NUL && !IsLone(s, i) {
        if i >= k {
          IsLoneSuffix(s, k, i);
          assert s[i] == rest[i - k];
        }
      }
    }
  }

  /** What comes out, JSONB accepts. */
  lemma CleanIsStorable(s: Text)
    ensures Storable(CleanString(s))
  {
    CleanIsByToken(s);
    CleanedAreClean(s);
    WrittenIsStorable(Cleaned(Tokens(s)));
  }

  lemma {:induction false} NoNulsToDrop(s: Text)
    requires NUL !in s
    ensures DropNuls(s) == s
  {
    if s != [] {
      NoNulsToDrop(s[1..]);
      assert s == [s[0]] + s[1..];
    }
  }

  /** A string is left as it is exactly when JSONB accepts it. */
  lemma UnchangedIff(s: Text)
    ensures CleanString(s) == s <==> Storable(s)
  {
    CleanIsStorable(s);
    if Storable(s) {
      assert ReplaceLone(s) == s;
      NoNulsToDrop(s);
    }
  }

  /** Cleaning twice is cleaning once. */
  lemma CleanTwice(s: Text)
    ensures CleanString(CleanString(s)) == CleanString(s)
  {
    CleanIsStorable(s);
    UnchangedIff(CleanString(s));
  }

  // ----- the other order -----------------------------------------------------------------

  /** NUL first, then surrogates. */
  function OtherOrder(s: Text): Text {
    ReplaceLone(DropNuls(s))
  }

  /** A high surrogate and a low one with nothing but NULs between them, and one at least. */
  ghost predicate Splices(s: Text, i: nat, j: nat) {
    && i + 1 < j < |s| && IsHigh(s[i]) && IsLow(s[j])
    && forall k | i < k < j :: s[k] == NUL
  }

  lemma DropNulsIs(s: Text)
    ensures NUL !in DropNuls(s) && |DropNuls(s)| <= |s|
    ensures forall u | u in DropNuls(s) :: u in s
  {
  }

  lemma {:induction false} AllNuls(s: Text)
    requires forall k | 0 <= k < |s| :: s[k] == NUL
    ensures DropNuls(s) == []
  {
    if s != [] {
      AllNuls(s[1..]);
    }
  }

  lemma {:induction false} SameLength(s: Text, t: Text)
    requires |s| == |t| && forall k | 0 <= k < |s| :: s[k] == NUL <==> t[k] == NUL
    ensures |DropNuls(s)| == |DropNuls(t)|
  {
    if s != [] {
      SameLength(s[1..], t[1..]);
    }
  }

  lemma DropAround(s: Text, i: nat)
    requires i < |s| && s[i] != NUL
    ensures DropNuls(s) == DropNuls(s[..i]) + [s[i]] + DropNuls(s[i + 1..])
  {
    assert s == s[..i] + s[i..] && s[i..][1..] == s[i + 1..];
    DropNulsAppend(s[..i], s[i..]);
    DropNulsOne(s[i..]);
  }

  /** The other order joins two halves that were apart into a character. */
  lemma OtherOrderSplices(s: Text, i: nat, j: nat)
    requires Splices(s, i, j)
    ensures OtherOrder(s) != CleanString(s)
  {
    var a := DropNuls(s[..i]);
    DropAround(s, i);
    var rest := s[i + 1..];
    DropAround(rest, j - i - 1);
    AllNuls(rest[..j - i - 1]);
    var d := DropNuls(s);
    assert d[|a|] == s[i] && d[|a| + 1] == s[j];
    assert OtherOrder(s)[|a|] == s[i];
    var r := ReplaceLone(s);
    assert r[i] == REPLACEMENT;
    DropAround(r, i);
    SameLength(s[..i], r[..i]);
    assert CleanString(s)[|a|] == REPLACEMENT;
  }

  /** The first unit that is not NUL. */
  lemma {:induction false} FirstKept(s: Text) returns (j: nat)
    requires DropNuls(s) != []
    ensures j < |s| && s[j] == DropNuls(s)[0] && forall k | 0 <= k < j :: s[k] == NUL
  {
    if s[0] == NUL {
      j := FirstKept(s[1..]);
      j := j + 1;
    } else {
      j := 0;
    }
  }

  function Kept(ts: seq<Token>): seq<Token> {
    if ts == [] then [] else (if ts[0].Nothing? then [] else [ts[0]]) + Kept(ts[1..])
  }

  lemma {:induction false} CleanedKept(ts: seq<Token>)
    ensures Cleaned(Kept(ts)) == Cleaned(ts)
  {
    if ts != [] {
      CleanedKept(ts[1..]);
      if ts[0].Nothing? {
        assert [] + Kept(ts[1..]) == Kept(ts[1..]) && [] + Cleaned(ts[1..]) == Cleaned(ts[1..]);
      } else {
        assert ([ts[0]] + Kept(ts[1..]))[1..] == Kept(ts[1..]);
      }
    }
  }

  lemma NotSpliced(s: Text)
    requires s != [] && !(|s| > 1 && IsHigh(s[0]) && IsLow(s[1])) && forall i: nat, j: nat :: !Splices(s, i, j)
    ensures var d := DropNuls(s[1..]); !(d != [] && IsHigh(s[0]) && IsLow(d[0]))
  {
    if DropNuls(s[1..]) != [] {
      var j := FirstKept(s[1..]);
      assert !Splices(s, 0, j + 1);
      assert forall k | 0 < k < j + 1 :: s[k] == s[1..][k - 1];
    }
  }

  lemma DroppedPair(s: Text)
    requires |s| > 1 && IsHigh(s[0]) && IsLow(s[1]) && Tokens(DropNuls(s[2..])) == Kept(Tokens(s[2..]))
    ensures Tokens(DropNuls(s)) == Kept(Tokens(s))
  {
    var d := DropNuls(s[2..]);
    assert DropNuls(s) == [s[0]] + DropNuls(s[1..]);
    assert s[1..][1..] == s[2..];
    assert DropNuls(s) == [s[0], s[1]] + d;
    assert DropNuls(s)[2..] == d;
    assert Tokens(s)[1..] == Tokens(s[2..]);
  }

  lemma DroppedNul(s: Text)
    requires s != [] && s[0] == NUL && Tokens(DropNuls(s[1..])) == Kept(Tokens(s[1..]))
    ensures Tokens(DropNuls(s)) == Kept(Tokens(s))
  {
    assert DropNuls(s) == DropNuls(s[1..]);
    assert Tokens(s) == [Nothing] + Tokens(s[1..]) && Tokens(s)[1..] == Tokens(s[1..]);
    assert [] + Kept(Tokens(s[1..])) == Kept(Tokens(s[1..]));
  }

  /** The token at the head of `s`, when it is a single unit. */
  function Single(u: Unit): Token {
    if IsHigh(u) || IsLow(u) then Half(u) else if u == NUL then Nothing else Letter(u)
  }

  lemma TokensOne(u: Unit, d: Text)
    requires !(d != [] && IsHigh(u) && IsLow(d[0]))
    ensures Tokens([u] + d) == [Single(u)] + Tokens(d)
  {
    assert ([u] + d)[1..] == d;
  }

  lemma DroppedUnit(s: Text)
    requires s != [] && !(|s| > 1 && IsHigh(s[0]) && IsLow(s[1])) && Tokens(DropNuls(s[1..])) == Kept(Tokens(s[1..]))
    requires var d := DropNuls(s[1..]); s[0] != NUL && !(d != [] && IsHigh(s[0]) && IsLow(d[0]))
    ensures Tokens(DropNuls(s)) == Kept(Tokens(s))
  {
    var d := DropNuls(s[1..]);
    assert s == [s[0]] + s[1..];
    TokensOne(s[0], s[1..]);
    TokensOne(s[0], d);
    DropNulsOne(s);
    KeptOne(Single(s[0]), Tokens(s[1..]));
  }

  lemma DropNulsOne(s: Text)
    requires s != [] && s[0] != NUL
    ensures DropNuls(s) == [s[0]] + DropNuls(s[1..])
  {
  }

  lemma KeptOne(t: Token, ts: seq<Token>)
    requires !t.Nothing?
    ensures Kept([t] + ts) == [t] + Kept(ts)
  {
    assert ([t] + ts)[1..] == ts;
  }

  lemma SplicesSuffix(s: Text, k: nat, i: nat, j: nat)
    requires k <= |s|
    ensures Splices(s[k..], i, j) ==> Splices(s, i + k, j + k)
  {
    if Splices(s[k..], i, j) {
      assert forall n | i + k < n < j + k :: s[n] == s[k..][n - k];
    }
  }

  /** Without such a splice, dropping the NULs changes nothing that the string says. */
  lemma {:induction false} DroppedSaysTheSame(s: Text)
    requires forall i: nat, j: nat :: !Splices(s, i, j)
    ensures Tokens(DropNuls(s)) == Kept(Tokens(s))
    decreases |s|
  {
    if s != [] {
      var k := if IsHigh(s[0]) && |s| > 1 && IsLow(s[1]) then 2 else 1;
      forall i: nat, j: nat ensures !Splices(s[k..], i, j) {
        SplicesSuffix(s, k, i, j);
      }
      DroppedSaysTheSame(s[k..]);
      if k == 2 {
        DroppedPair(s);
      } else if s[0] == NUL {
        DroppedNul(s);
      } else {
        NotSpliced(s);
        DroppedUnit(s);
      }
    }
  }

  /** WHEN THE ORDER MATTERS: the two orders agree on exactly the strings with no such splice. */
  lemma OrdersAgreeIff(s: Text)
    ensures OtherOrder(s) == CleanString(s) <==> forall i: nat, j: nat :: !Splices(s, i, j)
  {
    if i: nat, j: nat :| Splices(s, i, j) {
      OtherOrderSplices(s, i, j);
    } else {
      DroppedSaysTheSame(s);
      CleanIsByToken(s);
      CleanIsByToken(DropNuls(s));
      CleanedKept(Tokens(s));
      DropNulsIs(s);
      NoNulsToDrop(ReplaceLone(DropNuls(s)));
    }
  }
}
