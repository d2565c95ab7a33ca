/** The strong-password generator of the credential vault.

    Randomness is an oracle: `draw(n, m)` is the outcome of the n-th random
    choice the generator makes, a choice among `m` options, so it lies in
    [0, m). Every option of every choice is some oracle's answer, so a
    property proved for all oracles holds for every output `secrets.choice`
    can produce.
    Choices are numbered in the order the generator makes them: the seed
    characters 0 .. |pools| - 1, the filler characters |pools| .. length - 1,
    then one choice per shuffle step from `length` on. */
module PasswordGenerator {
  import opened Results

  const Upper: string := "ABCDEFGHIJKLMNOPQRSTUVWXYZ"
  const Lower: string := "abcdefghijklmnopqrstuvwxyz"
  const Digits: string := "0123456789"
  const Symbols: string := "!@#$%^&*()-_=+[]{};:,.<>/?"

  /** The two ValueErrors the generator raises. */
  datatype GenError =
    | NoCharacterSet              // no character class enabled
    | LengthTooShort(minimum: nat) // length below the number of enabled classes

  type Oracle = f: (nat, nat) -> nat | forall n: nat, m: nat :: 0 < m ==> f(n, m) < m
    witness (n: nat, m: nat) => 0

  /** The enabled character pools, in the fixed order upper, lower, digits, symbols. */
  function EnabledPools(useUpper: bool, useLower: bool, useDigits: bool, useSymbols: bool): (pools: seq<string>)
    ensures |pools| == ClassCount(useUpper, useLower, useDigits, useSymbols)
    ensures ValidPools(pools) <==> |pools| > 0
  {
    (if useUpper then [Upper] else []) + (if useLower then [Lower] else [])
    + (if useDigits then [Digits] else []) + (if useSymbols then [Symbols] else [])
  }

  /** A class's pool is among the enabled pools exactly when its flag is set. */
  lemma EnabledPoolsMembers(useUpper: bool, useLower: bool, useDigits: bool, useSymbols: bool)
    ensures var pools := EnabledPools(useUpper, useLower, useDigits, useSymbols);
      && (Upper in pools <==> useUpper) && (Lower in pools <==> useLower)
      && (Digits in pools <==> useDigits) && (Symbols in pools <==> useSymbols)
  {
  }

  /** All pools concatenated, in order. */
  function Join(pools: seq<string>): string
  {
    if pools == [] then "" else pools[0] + Join(pools[1..])
  }

  /** A character is in the joined alphabet exactly when some pool holds it. */
  lemma {:induction false} JoinMembers(pools: seq<string>, c: char)
    ensures c in Join(pools) <==> exists i :: 0 <= i < |pools| && c in pools[i]
  {
    if pools != [] {
      JoinMembers(pools[1..], c);
      if c in Join(pools) && c !in pools[0] {
        var i :| 0 <= i < |pools[1..]| && c in pools[1..][i];
        assert c in pools[i + 1];
      }
      if exists i :: 0 <= i < |pools| && c in pools[i] {
        var i :| 0 <= i < |pools| && c in pools[i];
        if i > 0 { assert c in pools[1..][i - 1]; }
      }
    }
  }

  lemma {:induction false} JoinNonEmpty(pools: seq<string>)
    requires pools != [] && |pools[0]| > 0
    ensures |Join(pools)| > 0
  {
  }

  /** One random choice from a non-empty pool. */
  function Pick(pool: string, n: nat, draw: Oracle): (c: char)
    requires |pool| > 0
    ensures c in pool
  {
    pool[draw(n, |pool|)]
  }

  /** At least one pool, and no empty one. */
  predicate ValidPools(pools: seq<string>)
  {
    pools != [] && forall i :: 0 <= i < |pools| ==> |pools[i]| > 0
  }

  /** The k-th character before shuffling: a seed from pool k for the first
      |pools| positions, a filler from the joined pools after them. */
  function SeedChar(pools: seq<string>, k: nat, draw: Oracle): char
    requires ValidPools(pools)
  {
    if k < |pools| then Pick(pools[k], k, draw)
    else
      JoinNonEmpty(pools);
      Pick(Join(pools), k, draw)
  }

  /** The characters before shuffling. */
  function Seeded(pools: seq<string>, length: nat, draw: Oracle): (s: seq<char>)
    requires ValidPools(pools) && |pools| <= length
    ensures |s| == length
  {
    seq(length, k requires 0 <= k < length => SeedChar(pools, k, draw))
  }

  /** Position i < |pools| holds a character of pool i, and every character
      comes from the joined alphabet. */
  lemma SeededCoversPools(pools: seq<string>, length: nat, draw: Oracle)
    requires ValidPools(pools) && |pools| <= length
    ensures forall i :: 0 <= i < |pools| ==> Seeded(pools, length, draw)[i] in pools[i]
    ensures forall c :: c in Seeded(pools, length, draw) ==> c in Join(pools)
  {
    var s := Seeded(pools, length, draw);
    forall c | c in s ensures c in Join(pools) {
      var k :| 0 <= k < |s| && s[k] == c;
      if k < |pools| {
        JoinMembers(pools, c);
      }
    }
  }

  /** The two elements at `i` and `j` exchanged (`i == j` leaves `s` as it is). */
  function Swap<T>(s: seq<T>, i: nat, j: nat): seq<T>
    requires i < |s| && j < |s|
  {
    s[i := s[j]][j := s[i]]
  }

  /** The Fisher-Yates steps for positions i, i - 1, ..., 1: step i exchanges
      position i with a position chosen in [0, i]. */
  function ShuffleDown<T>(s: seq<T>, i: nat, draw: Oracle, next: nat): seq<T>
    requires i < |s|
    decreases i
  {
    if i == 0 then s
    else ShuffleDown(Swap(s, i, draw(next, i + 1)), i - 1, draw, next + 1)
  }

  function Shuffled<T>(s: seq<T>, draw: Oracle, next: nat): seq<T>
  {
    if |s| == 0 then s else ShuffleDown(s, |s| - 1, draw, next)
  }

  lemma SwapPermutes<T>(s: seq<T>, i: nat, j: nat)
    requires i < |s| && j < |s|
    ensures |Swap(s, i, j)| == |s|
    ensures multiset(Swap(s, i, j)) == multiset(s)
  {
  }

  /** The shuffle only exchanges elements: same length, same multiset. */
  lemma {:induction false} ShufflePermutes<T>(s: seq<T>, draw: Oracle, next: nat)
    ensures |Shuffled(s, draw, next)| == |s|
    ensures multiset(Shuffled(s, draw, next)) == multiset(s)
  {
    if |s| > 0 {
      ShuffleDownPermutes(s, |s| - 1, draw, next);
    }
  }

  lemma {:induction false} ShuffleDownPermutes<T>(s: seq<T>, i: nat, draw: Oracle, next: nat)
    requires i < |s|
    ensures |ShuffleDown(s, i, draw, next)| == |s|
    ensures multiset(ShuffleDown(s, i, draw, next)) == multiset(s)
    decreases i
  {
    if i > 0 {
      var j := draw(next, i + 1);
      SwapPermutes(s, i, j);
      ShuffleDownPermutes(Swap(s, i, j), i - 1, draw, next + 1);
    }
  }

  function ClassCount(useUpper: bool, useLower: bool, useDigits: bool, useSymbols: bool): nat
  {
    (if useUpper then 1 else 0) + (if useLower then 1 else 0)
    + (if useDigits then 1 else 0) + (if useSymbols then 1 else 0)
  }

  /** What a call of the generator returns for the given parameters and random choices. */
  function Generate(length: int, useUpper: bool, useLower: bool, useDigits: bool, useSymbols: bool, draw: Oracle)
    : (r: Result<string, GenError>)
    ensures var n := ClassCount(useUpper, useLower, useDigits, useSymbols);
      && (r == Failure(NoCharacterSet) <==> n == 0)
      && (r == Failure(LengthTooShort(n)) <==> 0 < n && length < n)
      && (r.Success? <==> 0 < n <= length)
  {
    var pools := EnabledPools(useUpper, useLower, useDigits, useSymbols);
    if |pools| == 0 then Failure(NoCharacterSet)
    else if length < |pools| then Failure(LengthTooShort(|pools|))
    else Success(Shuffled(Seeded(pools, length, draw), draw, length))
  }

  /** Every enabled pool is represented, and nothing outside the enabled pools occurs. */
  predicate Strong(pw: string, pools: seq<string>)
  {
    && (forall i :: 0 <= i < |pools| ==> exists c :: c in pw && c in pools[i])
    && (forall c :: c in pw ==> c in Join(pools))
  }

  /** A successful result has the requested length (at least one), holds a
      character of every enabled class and only characters of enabled classes. */
  lemma GenerateIsStrong(length: int, useUpper: bool, useLower: bool, useDigits: bool, useSymbols: bool, draw: Oracle)
    requires Generate(length, useUpper, useLower, useDigits, useSymbols, draw).Success?
    ensures var pw := Generate(length, useUpper, useLower, useDigits, useSymbols, draw).value;
      && |pw| == length >= 1
      && Strong(pw, EnabledPools(useUpper, useLower, useDigits, useSymbols))
  {
    var pools := EnabledPools(useUpper, useLower, useDigits, useSymbols);
    var s := Seeded(pools, length, draw);
    var pw := Shuffled(s, draw, length);
    SeededCoversPools(pools, length, draw);
    ShufflePermutes(s, draw, length);
    forall i | 0 <= i < |pools| ensures exists c :: c in pw && c in pools[i] {
      assert s[i] in multiset(pw);
    }
    forall c | c in pw ensures c in Join(pools) {
      assert c in multiset(s);
    }
  }

  /** The shuffle loop of the generator: for i from |a| - 1 down to 1, exchange
      a[i] with a[j] for a j chosen in [0, i]. */
  method ShuffleInPlace(a: array<char>, draw: Oracle, next: nat)
    modifies a
    ensures a[..] == Shuffled(old(a[..]), draw, next)
  {
    if a.Length == 0 {
      return;
    }
    var i := a.Length - 1;
    var n := next;
    while i > 0
      invariant 0 <= i < a.Length
      invariant ShuffleDown(a[..], i, draw, n) == Shuffled(old(a[..]), draw, next)
    {
      var j := draw(n, i + 1);
      ghost var before := a[..];
      var tmp := a[i];
      a[i] := a[j];
      a[j] := tmp;
      assert a[..] == Swap(before, i, j);
      i := i - 1;
      n := n + 1;
    }
  }

  /** The pools list of the generator, appended to class by class. */
  method CollectPools(useUpper: bool, useLower: bool, useDigits: bool, useSymbols: bool) returns (pools: seq<string>)
    ensures pools == EnabledPools(useUpper, useLower, useDigits, useSymbols)
  {
    pools := [];
    if useUpper { pools := pools + [Upper]; }
    if useLower { pools := pools + [Lower]; }
    if useDigits { pools := pools + [Digits]; }
    if useSymbols { pools := pools + [Symbols]; }
  }

  /** The seed and filler characters of the generator, in a fresh array. */
  method FillSeeded(pools: seq<string>, length: nat, draw: Oracle) returns (chars: array<char>)
    requires ValidPools(pools) && |pools| <= length
    ensures fresh(chars) && chars[..] == Seeded(pools, length, draw)
  {
    ghost var seeded := Seeded(pools, length, draw);
    chars := new char[length];
    var k := 0;
    while k < |pools|
      invariant 0 <= k <= |pools|
      invariant forall t :: 0 <= t < k ==> chars[t] == seeded[t]
    {
      chars[k] := Pick(pools[k], k, draw);
      assert chars[k] == seeded[k];
      k := k + 1;
    }
    var all := Join(pools);
    while k < length
      invariant |pools| <= k <= length
      invariant forall t :: 0 <= t < k ==> chars[t] == seeded[t]
    {
      chars[k] := Pick(all, k, draw);
      assert chars[k] == seeded[k];
      k := k + 1;
    }
    assert chars[..] == seeded;
  }

  /** The generator itself: pools appended in order, one seed per pool, the
      rest filled from the joined pools, then an in-place Fisher-Yates shuffle. */
  method GeneratePassword(length: int, useUpper: bool, useLower: bool, useDigits: bool, useSymbols: bool, draw: Oracle)
    returns (r: Result<string, GenError>)
    ensures r == Generate(length, useUpper, useLower, useDigits, useSymbols, draw)
  {
    var pools := CollectPools(useUpper, useLower, useDigits, useSymbols);
    if |pools| == 0 {
      return Failure(NoCharacterSet);
    }
    if length < |pools| {
      return Failure(LengthTooShort(|pools|));
    }
    var chars := FillSeeded(pools, length, draw);
    ShuffleInPlace(chars, draw, length);
    return Success(chars[..]);
  }

  /** With all four classes enabled, any length of at least four succeeds and
      holds an upper, a lower, a digit and a symbol. */
  lemma AllClassesStrong(length: int, draw: Oracle)
    requires 4 <= length
    ensures Generate(length, true, true, true, true, draw).Success?
    ensures var pw := Generate(length, true, true, true, true, draw).value;
      && |pw| == length
      && (exists c :: c in pw && c in Upper) && (exists c :: c in pw && c in Lower)
      && (exists c :: c in pw && c in Digits) && (exists c :: c in pw && c in Symbols)
  {
    GenerateIsStrong(length, true, true, true, true, draw);
    var pools := EnabledPools(true, true, true, true);
    assert pools == [Upper, Lower, Digits, Symbols];
    assert pools[0] == Upper && pools[1] == Lower && pools[2] == Digits && pools[3] == Symbols;
  }

  /** The default length of `generate_password`, used with every class enabled. */
  const DefaultLength: int := 16

  /** A call with the defaults, as the menu makes it: sixteen characters,
      every class present. */
  lemma DefaultPasswordIsStrong(draw: Oracle)
    ensures Generate(DefaultLength, true, true, true, true, draw).Success?
    ensures var pw := Generate(DefaultLength, true, true, true, true, draw).value;
      && |pw| == 16
      && (exists c :: c in pw && c in Upper) && (exists c :: c in pw && c in Lower)
      && (exists c :: c in pw && c in Digits) && (exists c :: c in pw && c in Symbols)
  {
    AllClassesStrong(DefaultLength, draw);
  }

  /** All four classes and length 8: eight characters, every class present. */
  lemma EightWithAllClasses(draw: Oracle)
    ensures Generate(8, true, true, true, true, draw).Success?
    ensures var pw := Generate(8, true, true, true, true, draw).value;
      && |pw| == 8
      && (exists c :: c in pw && c in Upper) && (exists c :: c in pw && c in Lower)
      && (exists c :: c in pw && c in Digits) && (exists c :: c in pw && c in Symbols)
  {
    AllClassesStrong(8, draw);
  }

  /** Four classes need at least four characters. */
  lemma TwoWithAllClassesFails(draw: Oracle)
    ensures Generate(2, true, true, true, true, draw) == Failure(LengthTooShort(4))
  {
  }
}
