/** The members of the `pending_rank` sorted set: a zero-padded 20-digit sequence
    number, a colon and the task id. */
module RankMember {
  import Lexical

  const WIDTH := 20

  function Pow10(w: nat): (p: nat)
    ensures p >= 1
  {
    if w == 0 then 1 else 10 * Pow10(w - 1)
  }

  function Digit(d: nat): char
    requires d < 10
  {
    ['0', '1', '2', '3', '4', '5', '6', '7', '8', '9'][d]
  }

  /** What `string.format` prints for a zero-padded field of width w, for a number that fits in it. */
  function Digits(n: nat, w: nat): (s: string)
    ensures |s| == w
    decreases w
  {
    if w == 0 then [] else Digits(n / 10, w - 1) + [Digit(n % 10)]
  }

  lemma {:induction false} DigitsInjective(m: nat, n: nat, w: nat)
    requires m < Pow10(w) && n < Pow10(w)
    requires Digits(m, w) == Digits(n, w)
    ensures m == n
    decreases w
  {
    if w > 0 {
      var x, y := Digits(m / 10, w - 1), Digits(n / 10, w - 1);
      assert Digits(m, w)[..w - 1] == x && Digits(n, w)[..w - 1] == y;
      assert Digits(m, w)[w - 1] == Digit(m % 10) && Digits(n, w)[w - 1] == Digit(n % 10);
      DigitsInjective(m / 10, n / 10, w - 1);
    }
  }

  /** Padded numbers sort as strings exactly as they sort as numbers. */
  lemma {:induction false} DigitsOrder(m: nat, n: nat, w: nat)
    requires m < Pow10(w) && n < Pow10(w)
    ensures Lexical.Less(Digits(m, w), Digits(n, w)) <==> m < n
    decreases w
  {
    if w > 0 {
      DigitsOrder(m / 10, n / 10, w - 1);
      Lexical.PrefixDecides(Digits(m / 10, w - 1), Digits(n / 10, w - 1), [Digit(m % 10)], [Digit(n % 10)]);
      if Digits(m / 10, w - 1) == Digits(n / 10, w - 1) {
        DigitsInjective(m / 10, n / 10, w - 1);
      }
    }
  }

  function Member(seqno: nat, id: string): (m: string)
    ensures |m| == WIDTH + 1 + |id|
  {
    Digits(seqno, WIDTH) + ":" + id
  }

  /** `string.sub(rankMember, 22)`. */
  function IdOf(member: string): string {
    if |member| < WIDTH + 1 then [] else member[WIDTH + 1..]
  }

  /** The counter is a Redis integer, so it stops below 2^63 and always fits 20 digits. */
  const MAX_SEQUENCE: nat := 0x7fff_ffff_ffff_ffff

  lemma SequenceFits()
    ensures MAX_SEQUENCE < Pow10(WIDTH)
  {
    assert Pow10(5) == 100_000;
    assert Pow10(10) == 100_000 * Pow10(5);
    assert Pow10(15) == 100_000 * Pow10(10);
    assert Pow10(20) == 100_000 * Pow10(15);
  }

  /** Cutting the prefix off recovers the id, whatever characters the id holds. */
  lemma IdRoundTrip(seqno: nat, id: string)
    ensures IdOf(Member(seqno, id)) == id
  {
    assert Member(seqno, id)[..WIDTH + 1] == Digits(seqno, WIDTH) + ":";
  }

  lemma PrefixInjective(p: string, q: string, a: string, b: string)
    requires |p| == |q| && p + ":" + a == q + ":" + b
    ensures p == q
  {
    assert (p + ":" + a)[..|p|] == p;
    assert (q + ":" + b)[..|q|] == q;
  }

  lemma MemberInjective(m: nat, a: string, n: nat, b: string)
    requires m <= MAX_SEQUENCE && n <= MAX_SEQUENCE
    requires Member(m, a) == Member(n, b)
    ensures m == n && a == b
  {
    SequenceFits();
    IdRoundTrip(m, a);
    IdRoundTrip(n, b);
    PrefixInjective(Digits(m, WIDTH), Digits(n, WIDTH), a, b);
    DigitsInjective(m, n, WIDTH);
  }

  /** Members sort by sequence number; ids matter only between equal numbers. */
  lemma MemberOrder(m: nat, a: string, n: nat, b: string)
    requires m <= MAX_SEQUENCE && n <= MAX_SEQUENCE
    ensures Lexical.Less(Member(m, a), Member(n, b)) <==> m < n || (m == n && Lexical.Less(a, b))
  {
    SequenceFits();
    DigitsOrder(m, n, WIDTH);
    var p, q := Digits(m, WIDTH), Digits(n, WIDTH);
    assert Member(m, a) == (p + ":") + a && Member(n, b) == (q + ":") + b;
    Lexical.PrefixDecides(p + ":", q + ":", a, b);
    Lexical.PrefixDecides(p, q, ":", ":");
    assert (p + ":")[..WIDTH] == p && (q + ":")[..WIDTH] == q;
    if p == q {
      DigitsInjective(m, n, WIDTH);
    }
  }
}
