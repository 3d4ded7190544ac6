/**
 * The few `std::string` and `<algorithm>` operations the drivers rely on
 * (`std::count`, `find`, `find_first_not_of`), stated as functions over
 * `seq<char>`. `std::string::npos` is `None`: it is larger than every index,
 * which is all the callers use it for.
 */
module StdString {
  import opened Wrappers

  const Digits: string := "0123456789"
  const HexDigits: string := "0123456789abcdefABCDEF"

  /** `std::isdigit` in the "C" locale. */
  predicate IsDigit(c: char) { '0' <= c <= '9' }

  predicate IsHexDigit(c: char) { IsDigit(c) || 'a' <= c <= 'f' || 'A' <= c <= 'F' }

  predicate AllDigits(s: string) { forall i :: 0 <= i < |s| ==> IsDigit(s[i]) }

  lemma DigitsAreDigits(c: char)
    ensures c in Digits <==> IsDigit(c)
  {
  }

  lemma HexDigitsAreHexDigits(c: char)
    ensures c in HexDigits <==> IsHexDigit(c)
  {
  }

  /** `std::count(s.begin(), s.end(), c)`: the number of occurrences of `c`. */
  function Count(s: string, c: char): (n: nat)
    ensures n == multiset(s)[c]
    ensures n == 0 <==> c !in s
  {
    if s == [] then 0
    else
      assert s == [s[0]] + s[1..];
      (if s[0] == c then 1 else 0) + Count(s[1..], c)
  }

  /** `s.find(c)`: the index of the first `c`, or `None` for `npos`. */
  function Find(s: string, c: char): (r: Option<nat>)
    ensures r.None? <==> c !in s
    ensures r.Some? ==> r.value < |s| && s[r.value] == c && c !in s[..r.value]
  {
    if s == [] then None
    else if s[0] == c then Some(0)
    else
      match Find(s[1..], c)
      case None => None
      case Some(k) => assert s[..k + 1] == [s[0]] + s[1..][..k]; Some(k + 1)
  }

  /** `s.find_first_not_of(chars, pos)`: the first index from `pos` on whose character is not in `chars`. */
  function FindFirstNotOf(s: string, chars: string, pos: nat): (r: Option<nat>)
    ensures r.None? <==> forall i :: pos <= i < |s| ==> s[i] in chars
    ensures r.Some? ==> pos <= r.value < |s| && s[r.value] !in chars
    ensures r.Some? ==> forall i :: pos <= i < r.value ==> s[i] in chars
    decreases |s| - pos
  {
    if pos >= |s| then None
    else if s[pos] !in chars then Some(pos)
    else FindFirstNotOf(s, chars, pos + 1)
  }

  /** Splitting a string at an occurrence of `c` adds the counts of the two sides. */
  lemma CountSplit(s: string, i: nat, c: char)
    requires i < |s| && s[i] == c
    ensures Count(s, c) == Count(s[..i], c) + 1 + Count(s[i + 1..], c)
  {
    assert s == s[..i] + [s[i]] + s[i + 1..];
  }
}
