/** The order of strings and numbers as text. */
module Text {

  /** `strings.Compare` */
  function Compare(a: string, b: string): int {
    if a == "" then (if b == "" then 0 else -1)
    else if b == "" then 1
    else if a[0] < b[0] then -1
    else if a[0] > b[0] then 1
    else Compare(a[1..], b[1..])
  }

  predicate Less(a: string, b: string) { Compare(a, b) < 0 }

  lemma {:induction false} CompareEqual(a: string, b: string)
    ensures Compare(a, b) == 0 <==> a == b
    ensures Compare(b, a) == -Compare(a, b)
  {
    if a != "" && b != "" && a[0] == b[0] {
      CompareEqual(a[1..], b[1..]);
      assert a == [a[0]] + a[1..] && b == [b[0]] + b[1..];
    }
  }

  lemma {:induction false} LessTransitive(a: string, b: string, c: string)
    requires Less(a, b) && Less(b, c)
    ensures Less(a, c)
  {
    if a != "" && a[0] == b[0] && b[0] == c[0] {
      LessTransitive(a[1..], b[1..], c[1..]);
    }
  }

  /** A number in decimal. */
  function Digits(n: nat): string {
    if n < 10 then [('0' as int + n) as char] else Digits(n / 10) + [('0' as int + n % 10) as char]
  }

  /** `a` comes before `b` when both are compared as text. */
  predicate TextBefore(a: nat, b: nat) { Less(Digits(a), Digits(b)) }

  /** Nine and ten are the first numbers that text puts the other way round. */
  lemma TenBeforeNine()
    ensures TextBefore(10, 9) && !TextBefore(9, 10)
  {
  }

  ghost predicate TextSorted(q: seq<nat>) {
    forall i, j :: 0 <= i < j < |q| ==> TextBefore(q[i], q[j])
  }

  /** It is enough to compare neighbours. */
  lemma {:induction false} NeighboursSorted(q: seq<nat>)
    requires forall i, j :: 0 <= i < j < |q| && j == i + 1 ==> TextBefore(q[i], q[j])
    ensures TextSorted(q)
  {
    if |q| > 1 {
      var p, k := q[..|q| - 1], |q| - 1;
      NeighboursSorted(p);
      assert TextBefore(q[k - 1], q[k]);
      forall i | 0 <= i < k
        ensures TextBefore(q[i], q[k])
      {
        if i < k - 1 {
          assert TextBefore(p[i], p[k - 1]);
          LessTransitive(Digits(q[i]), Digits(q[k - 1]), Digits(q[k]));
        }
      }
      forall i, j | 0 <= i < j < |q|
        ensures TextBefore(q[i], q[j])
      {
        assert j < k ==> TextBefore(p[i], p[j]);
      }
    }
  }
}
