/** The console banners of the test scripts: a title centred in an 80-column line of '='. */
module Utils {
  import opened Text

  const HeaderWidth := 80

  /** Number of '=' left of the title: half of the free columns, rounded down. */
  function EqLeft(titleLen: nat): int
  {
    // Dafny's `/` rounds toward negative infinity for a positive divisor, like `math.floor`
    (HeaderWidth - 2 - titleLen) / 2
  }

  /** Number of '=' right of the title: half of the free columns, rounded up. */
  function EqRight(titleLen: nat): int
  {
    var eqcnt := HeaderWidth - 2 - titleLen;
    if eqcnt % 2 == 0 then eqcnt / 2 else eqcnt / 2 + 1
  }

  /** The line `printHeader1` prints for `title`: the left pad of '=', a space,
      the title, a space and the right pad of '='. */
  function Header1(title: string): (line: string)
    ensures |title| <= HeaderWidth - 2 ==> |line| == HeaderWidth
    ensures |title| >= HeaderWidth - 2 ==> line == " " + title + " "
    ensures |line| == EqLeftCount(|title|) + 1 + |title| + 1 + EqRightCount(|title|)
    ensures forall i :: 0 <= i < EqLeftCount(|title|) ==> line[i] == '='
    ensures line[EqLeftCount(|title|)] == ' ' && line[EqLeftCount(|title|) + 1 + |title|] == ' '
    ensures line[EqLeftCount(|title|) + 1..EqLeftCount(|title|) + 1 + |title|] == title
    ensures forall i :: EqLeftCount(|title|) + 2 + |title| <= i < |line| ==> line[i] == '='
  {
    Repeat('=', EqLeft(|title|)) + " " + title + " " + Repeat('=', EqRight(|title|))
  }

  /** How many '=' actually appear left of the title (none when the pad count is negative). */
  function EqLeftCount(titleLen: nat): (n: nat)
  {
    if EqLeft(titleLen) < 0 then 0 else EqLeft(titleLen)
  }

  /** How many '=' actually appear right of the title (none when the pad count is negative). */
  function EqRightCount(titleLen: nat): (n: nat)
  {
    if EqRight(titleLen) < 0 then 0 else EqRight(titleLen)
  }

  /** The two pads differ by at most one, the right one never shorter, and fill the line. */
  lemma PadsBalanced(titleLen: nat)
    ensures EqLeft(titleLen) <= EqRight(titleLen) <= EqLeft(titleLen) + 1
    ensures EqLeft(titleLen) + 1 + titleLen + 1 + EqRight(titleLen) == HeaderWidth
    ensures EqLeft(titleLen) == EqRight(titleLen) <==> titleLen % 2 == 0
  {
  }

  /** The three lines `printHeader0` prints: a rule, the centred title, a rule. */
  function Header0(title: string): (lines: seq<string>)
    ensures |lines| == 3 && lines[1] == Header1(title)
    ensures lines[0] == lines[2] && |lines[0]| == HeaderWidth
    ensures forall i :: 0 <= i < |lines[0]| ==> lines[0][i] == '='
  {
    [Repeat('=', HeaderWidth), Header1(title), Repeat('=', HeaderWidth)]
  }
}
