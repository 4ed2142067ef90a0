// Generated key material: RandomKey in internal/resources/secret.go.
module RandomKey {
  import opened Base

  function Range(first: char, n: nat): string
    requires first as int + n <= 128
  {
    seq(n, i requires 0 <= i < n => (first as int + i) as char)
  }

  const ALPHABET := Range('A', 26) + Range('a', 26) + Range('0', 10) + "-_"

  function CharOf(b: bv8): char {
    assert (b & 0x3F) < 64;
    ALPHABET[(b & 0x3F) as int]
  }

  /** The key a run of random bytes is turned into. */
  function KeyOf(raw: seq<bv8>): (key: string)
    ensures |key| == |raw|
  {
    seq(|raw|, i requires 0 <= i < |raw| => CharOf(raw[i]))
  }

  /** Reads n bytes from the random source and fills the key byte by byte. A source that has fewer is a failed read. */
  method Generate(n: nat, source: Option<seq<bv8>>) returns (key: Option<string>)
    ensures key == (if source.Some? && |source.value| >= n then Some(KeyOf(source.value[..n])) else None)
  {
    if source.None? || |source.value| < n {
      return None;
    }
    var raw := source.value[..n];
    var out := new char[n];
    for i := 0 to n
      invariant forall j :: 0 <= j < i ==> out[j] == CharOf(raw[j])
    {
      out[i] := CharOf(raw[i]);
    }
    assert out[..] == KeyOf(raw);
    return Some(out[..]);
  }

  predicate OverAlphabet(t: string) {
    forall i :: 0 <= i < |t| ==> t[i] in ALPHABET
  }

  function Pow4(n: nat): nat {
    if n == 0 then 1 else 4 * Pow4(n - 1)
  }

  /** The position of c in the alphabet, or 64 when it is not in it. */
  function IndexOf(c: char): (i: nat)
    ensures i <= 64
    ensures i < 64 ==> ALPHABET[i] == c
    ensures forall j :: 0 <= j < 64 && ALPHABET[j] == c ==> i == j
  {
    if 'A' <= c <= 'Z' then c as nat - 'A' as nat
    else if 'a' <= c <= 'z' then c as nat - 'a' as nat + 26
    else if '0' <= c <= '9' then c as nat - '0' as nat + 52
    else if c == '-' then 62
    else if c == '_' then 63
    else 64
  }

  /** The bytes that become the character c: its index under any two high bits. */
  function Codes(c: char): set<bv8> {
    var i := IndexOf(c);
    if i == 64 then {} else var j := i as bv8; {j, j | 0x40, j | 0x80, j | 0xC0}
  }

  lemma LowBits(b: bv8, j: bv8)
    requires j < 64
    ensures (b & 0x3F) == j <==> b in {j, j | 0x40, j | 0x80, j | 0xC0}
    ensures |{j, j | 0x40, j | 0x80, j | 0xC0}| == 4
  {
    assert (b & 0x3F) == j <==> (b == j || b == j | 0x40 || b == j | 0x80 || b == j | 0xC0);
    assert j != j | 0x40 && j != j | 0x80 && j != j | 0xC0;
    assert j | 0x40 != j | 0x80 && j | 0x40 != j | 0xC0 && j | 0x80 != j | 0xC0;
  }

  lemma ByteOfIndex(i: nat)
    requires i < 64
    ensures (i as bv8) as int == i
  {
  }

  lemma SameByte(x: bv8, y: bv8)
    requires x as int == y as int
    ensures x == y
  {
  }

  lemma LowBitsAsIndex(b: bv8, i: nat)
    requires i < 64
    ensures (b & 0x3F) as int == i <==> (b & 0x3F) == i as bv8
  {
    ByteOfIndex(i);
    if (b & 0x3F) as int == i {
      SameByte(b & 0x3F, i as bv8);
    }
  }

  lemma CharOfIs(b: bv8, i: nat)
    requires i < 64
    ensures CharOf(b) == ALPHABET[i] <==> (b & 0x3F) as int == i
  {
    assert IndexOf(ALPHABET[i]) == i;
    assert (b & 0x3F) < 64;
    assert IndexOf(ALPHABET[(b & 0x3F) as int]) == (b & 0x3F) as int;
  }

  lemma CodesExact(b: bv8, c: char)
    ensures b in Codes(c) <==> CharOf(b) == c
    ensures |Codes(c)| == if c in ALPHABET then 4 else 0
  {
    var i := IndexOf(c);
    if i < 64 {
      CharOfIs(b, i);
      LowBitsAsIndex(b, i);
      LowBits(b, i as bv8);
    } else {
      assert (b & 0x3F) < 64;
    }
  }

  ghost function Prepend<T>(b: T, tails: set<seq<T>>): set<seq<T>> {
    set r | r in tails :: [b] + r
  }

  ghost function Product<T>(bs: set<T>, tails: set<seq<T>>): set<seq<T>> {
    set b, r | b in bs && r in tails :: [b] + r
  }

  /** Every byte string that becomes t. */
  ghost function Preimages(t: string): set<seq<bv8>> {
    if t == "" then {[]} else Product(Codes(t[0]), Preimages(t[1..]))
  }

  lemma {:induction false} PrependSize<T>(b: T, tails: set<seq<T>>)
    ensures |Prepend(b, tails)| == |tails|
    decreases tails
  {
    if tails != {} {
      var r :| r in tails;
      PrependSize(b, tails - {r});
      assert [b] + r !in Prepend(b, tails - {r}) by {
        forall q | q in tails - {r} ensures [b] + q != [b] + r {
          assert ([b] + q)[1..] == q && ([b] + r)[1..] == r;
        }
      }
      assert Prepend(b, tails) == Prepend(b, tails - {r}) + {[b] + r};
    }
  }

  lemma ProductSplit<T>(b: T, bs: set<T>, tails: set<seq<T>>)
    requires b in bs
    ensures Product(bs, tails) == Product(bs - {b}, tails) + Prepend(b, tails)
    ensures Product(bs - {b}, tails) !! Prepend(b, tails)
  {
    forall x | x in Prepend(b, tails) ensures x !in Product(bs - {b}, tails) {
      assert x[0] == b;
    }
  }

  lemma UnionSize<T>(a: set<T>, b: set<T>)
    requires a !! b
    ensures |a + b| == |a| + |b|
  {
  }

  lemma OneMore(m: nat, n: nat)
    ensures m * n + n == (m + 1) * n
  {
  }

  lemma {:induction false} ProductSize<T>(bs: set<T>, tails: set<seq<T>>)
    ensures |Product(bs, tails)| == |bs| * |tails|
    decreases bs
  {
    if bs != {} {
      var b :| b in bs;
      ProductSize(bs - {b}, tails);
      PrependSize(b, tails);
      ProductSplit(b, bs, tails);
      UnionSize(Product(bs - {b}, tails), Prepend(b, tails));
      OneMore(|bs - {b}|, |tails|);
      assert |bs| == |bs - {b}| + 1;
    }
  }

  lemma KeyOfCons(b: bv8, r: seq<bv8>)
    ensures KeyOf([b] + r) == [CharOf(b)] + KeyOf(r)
  {
  }

  lemma {:induction false} PreimagesExact(t: string, raw: seq<bv8>)
    ensures raw in Preimages(t) <==> KeyOf(raw) == t
    decreases |t|
  {
    if t == "" {
      assert raw in Preimages(t) <==> |raw| == 0;
    } else if raw == [] {
      assert forall b: bv8, r: seq<bv8> :: |[b] + r| > 0;
    } else {
      var b, r := raw[0], raw[1..];
      assert raw == [b] + r;
      PreimagesExact(t[1..], r);
      KeyOfCons(b, r);
      CodesExact(b, t[0]);
      ConsInProduct(b, r, Codes(t[0]), Preimages(t[1..]));
      assert [CharOf(b)] + KeyOf(r) == t <==> CharOf(b) == t[0] && KeyOf(r) == t[1..] by {
        assert t == [t[0]] + t[1..];
        assert ([CharOf(b)] + KeyOf(r))[1..] == KeyOf(r);
      }
    }
  }

  lemma ConsInProduct<T>(b: T, r: seq<T>, bs: set<T>, tails: set<seq<T>>)
    ensures [b] + r in Product(bs, tails) <==> b in bs && r in tails
  {
    if [b] + r in Product(bs, tails) {
      var c, q :| c in bs && q in tails && [c] + q == [b] + r;
      assert c == ([c] + q)[0] == b && q == ([c] + q)[1..] == ([b] + r)[1..] == r;
    }
  }

  /**
   * Exactly uniform: every key over the alphabet comes from the same number of byte strings, and no
   * other text ever does.
   */
  lemma {:induction false} UniformKeys(t: string)
    ensures |Preimages(t)| == if OverAlphabet(t) then Pow4(|t|) else 0
    decreases |t|
  {
    if t != "" {
      UniformKeys(t[1..]);
      CodesExact(0, t[0]);
      ProductSize(Codes(t[0]), Preimages(t[1..]));
      assert OverAlphabet(t) <==> t[0] in ALPHABET && OverAlphabet(t[1..]) by {
        assert t == [t[0]] + t[1..];
      }
      assert OverAlphabet(t) ==> |Codes(t[0])| * |Preimages(t[1..])| == 4 * Pow4(|t| - 1);
      assert !OverAlphabet(t) ==> |Codes(t[0])| == 0 || |Preimages(t[1..])| == 0;
    }
  }

  /** The 64 characters in their order: capitals, small letters, digits, hyphen and underscore, each once. */
  lemma AlphabetSpelled(i: nat)
    requires i < 64
    ensures |ALPHABET| == 64
    ensures ALPHABET[i] as int == if i < 26 then 'A' as int + i
                                  else if i < 52 then 'a' as int + (i - 26)
                                  else if i < 62 then '0' as int + (i - 52)
                                  else if i == 62 then '-' as int
                                  else '_' as int
    ensures forall j :: 0 <= j < 64 && j != i ==> ALPHABET[j] != ALPHABET[i]
  {
    assert IndexOf(ALPHABET[i]) == i;
    forall j | 0 <= j < 64 && j != i ensures ALPHABET[j] != ALPHABET[i] {
      assert IndexOf(ALPHABET[j]) == j;
    }
  }

  lemma KeysOverAlphabet(raw: seq<bv8>)
    ensures OverAlphabet(KeyOf(raw))
  {
    forall i | 0 <= i < |raw| ensures KeyOf(raw)[i] in ALPHABET {
      assert KeyOf(raw)[i] == CharOf(raw[i]);
    }
  }
}
