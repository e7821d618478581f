/**
 * The grade lookup: a score is classified into one of the letter grades
 * A to E by the thresholds 90, 80, 70 and 60, and the grade is shown as its
 * own letter.
 */
module Grades {

  import opened Wrappers

  /** The grades, in the order of their enum values 0 to 4 (A is best). */
  datatype Grade = A | B | C | D | E

  /** The integer value of a grade in the enumeration. */
  function Ordinal(g: Grade): (k: nat)
    ensures k < 5 && [A, B, C, D, E][k] == g
  {
    match g
    case A => 0
    case B => 1
    case C => 2
    case D => 3
    case E => 4
  }

  /** The grade of a score, as `getnum` in chengji.c computes it, upper-bound
      checks included. Each grade is exactly its band of scores: A is
      unbounded above and E takes every score below 60, negatives included. */
  function GetNum(num: int): (g: Grade)
    ensures g == A <==> 90 <= num
    ensures g == B <==> 80 <= num < 90
    ensures g == C <==> 70 <= num < 80
    ensures g == D <==> 60 <= num < 70
    ensures g == E <==> num < 60
  {
    if num >= 90 then A
    else if num >= 80 && num < 90 then B
    else if num >= 70 && num < 80 then C
    else if num >= 60 && num < 70 then D
    else E
  }

  /** The same chain with the upper-bound checks dropped. */
  function GetNumByLowerBounds(num: int): Grade {
    if num >= 90 then A
    else if num >= 80 then B
    else if num >= 70 then C
    else if num >= 60 then D
    else E
  }

  /** Each earlier branch already excludes the scores an upper-bound check
      would reject, so the checks change nothing. */
  lemma UpperBoundChecksRedundant(num: int)
    ensures GetNum(num) == GetNumByLowerBounds(num)
  {
  }

  /** The grading table: each grade above E with the least score that earns it,
      best grade first. */
  const Ladder: seq<(Grade, int)> := [(A, 90), (B, 80), (C, 70), (D, 60)]

  /** The first grade in `ladder` whose threshold `num` reaches, or E when it
      reaches none. */
  function FirstReached(num: int, ladder: seq<(Grade, int)>): Grade {
    if ladder == [] then E
    else if num >= ladder[0].1 then ladder[0].0
    else FirstReached(num, ladder[1..])
  }

  /** The range checks agree with a lookup in the grading table. */
  lemma {:induction false} GetNumIsTableLookup(num: int)
    ensures GetNum(num) == FirstReached(num, Ladder)
  {
    var l1 := Ladder[1..];
    var l2 := l1[1..];
    var l3 := l2[1..];
    assert l1 == [(B, 80), (C, 70), (D, 60)];
    assert l2 == [(C, 70), (D, 60)];
    assert l3 == [(D, 60)] && l3[1..] == [];
    if num < 90 {
      assert FirstReached(num, Ladder) == FirstReached(num, l1);
      if num < 80 {
        assert FirstReached(num, l1) == FirstReached(num, l2);
        if num < 70 {
          assert FirstReached(num, l2) == FirstReached(num, l3);
          if num < 60 {
            assert FirstReached(num, l3) == FirstReached(num, l3[1..]);
          }
        }
      }
    }
  }

  /** A higher score never earns a worse grade. */
  lemma GetNumMonotone(s1: int, s2: int)
    requires s1 <= s2
    ensures Ordinal(GetNum(s2)) <= Ordinal(GetNum(s1))
  {
  }

  /** The letter printed for a grade; E is the fallback case. */
  function Letter(g: Grade): (c: char)
    ensures c == "ABCDE"[Ordinal(g)]
  {
    match g
    case A => 'A'
    case B => 'B'
    case C => 'C'
    case D => 'D'
    case _ => 'E'
  }

  /** Reads a printed letter back as a grade. */
  function GradeOfLetter(c: char): Option<Grade> {
    match c
    case 'A' => Some(A)
    case 'B' => Some(B)
    case 'C' => Some(C)
    case 'D' => Some(D)
    case 'E' => Some(E)
    case _ => None
  }

  /** The printed letter names its grade and no other. */
  lemma LetterRoundTrip(g: Grade)
    ensures GradeOfLetter(Letter(g)) == Some(g)
  {
  }

  /** The letter printed for a score read from input. */
  function Report(num: int): (c: char)
    ensures c in "ABCDE"
    ensures c == 'A' <==> num >= 90
    ensures c == 'B' <==> 80 <= num < 90
    ensures c == 'C' <==> 70 <= num < 80
    ensures c == 'D' <==> 60 <= num < 70
    ensures c == 'E' <==> num < 60
  {
    Letter(GetNum(num))
  }
}
