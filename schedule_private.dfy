/**
 * The two inline helpers of the schedule tool's private header: the index of
 * a (group, year) slot inside one day's block, and copy_string, which ends a
 * line read by fgets in place and copies it to a fresh buffer.
 */
module SchedulePrivate {

  /** size_t is 64 bits wide: a negative int converts to it modulo 2^64. */
  const SizeModulus: int := 0x1_0000_0000_0000_0000

  /** Groups per year and years per group: one day holds MaxGroups * MaxYear slots. */
  const MaxGroups: int := 2
  const MaxYear: int := 4

  /**
   * calculate_group_year_index: (year - 1) + (year - 1) * (group - 1),
   * computed on int and returned as size_t.
   */
  function GroupYearIndex(group: int, year: int): (r: nat)
    ensures r < SizeModulus
  {
    ((year - 1) + (year - 1) * (group - 1)) % SizeModulus
  }

  /** The index is the product (year - 1) * group, taken as a size_t. */
  lemma GroupYearIndexIsProduct(group: int, year: int)
    ensures GroupYearIndex(group, year) == ((year - 1) * group) % SizeModulus
  {
    assert (year - 1) + (year - 1) * (group - 1) == (year - 1) * group;
  }

  /** Every accepted (group, year) lands inside the day's block of MaxGroups * MaxYear slots. */
  lemma GroupYearIndexInBlock(group: int, year: int)
    requires 1 <= group <= MaxGroups && 1 <= year <= MaxYear
    ensures GroupYearIndex(group, year) <= 6 < MaxGroups * MaxYear
    ensures GroupYearIndex(group, year) == (year - 1) * group
  {
    GroupYearIndexIsProduct(group, year);
  }

  /**
   * The index does not tell slots apart: first-year students of both groups
   * share slot 0, and group 1 of year 3 shares slot 2 with group 2 of year 2.
   * Every other accepted pair has a slot of its own.
   */
  lemma GroupYearIndexCollisions(g1: int, y1: int, g2: int, y2: int)
    requires 1 <= g1 <= MaxGroups && 1 <= y1 <= MaxYear
    requires 1 <= g2 <= MaxGroups && 1 <= y2 <= MaxYear
    ensures GroupYearIndex(g1, y1) == GroupYearIndex(g2, y2) <==>
      || (g1 == g2 && y1 == y2)
      || (y1 == 1 && y2 == 1)
      || (g1 == 1 && y1 == 3 && g2 == 2 && y2 == 2)
      || (g1 == 2 && y1 == 2 && g2 == 1 && y2 == 3)
  {
    GroupYearIndexInBlock(g1, y1);
    GroupYearIndexInBlock(g2, y2);
  }

  /**
   * The buffer copy_string leaves behind: a '\n' in its last cell (index
   * len - 1) becomes '\0'; every other cell, and any other last character,
   * stays as it was.
   */
  function EndLine(s: seq<char>, len: nat): (r: seq<char>)
    requires 1 <= len <= |s|
    ensures |r| == |s|
    ensures r[len - 1] == (if s[len - 1] == '\n' then '\0' else s[len - 1])
    ensures forall i :: 0 <= i < |s| && i != len - 1 ==> r[i] == s[i]
  {
    s[len - 1 := if s[len - 1] == '\n' then '\0' else s[len - 1]]
  }

  /** Ending a line twice is ending it once, and the ended line has no '\n' in its last cell. */
  lemma EndLineIdempotent(s: seq<char>, len: nat)
    requires 1 <= len <= |s|
    ensures EndLine(EndLine(s, len), len) == EndLine(s, len)
    ensures EndLine(s, len)[len - 1] != '\n'
  {
  }

  /** fgets leaves "Math\n" behind; the copy is "Math" followed by the terminator. */
  lemma EndLineExample()
    ensures EndLine("Math\n", 5) == "Math\0"
    ensures EndLine("904l", 4) == "904l"
  {
  }

  /**
   * copy_string: ends the line in src in place, then copies its first len
   * characters to a fresh buffer of exactly len characters.
   */
  method CopyString(src: array<char>, len: nat) returns (dst: array<char>)
    requires 1 <= len <= src.Length
    modifies src
    ensures src[..] == EndLine(old(src[..]), len)
    ensures fresh(dst) && dst.Length == len
    ensures dst[..] == EndLine(old(src[..]), len)[..len]
  {
    src[len - 1] := if src[len - 1] == '\n' then '\0' else src[len - 1];
    dst := new char[len](i requires 0 <= i < len reads src => src[i]);
  }
}
