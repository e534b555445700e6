/** The names of virtual nodes: the text that AddNode hashes for copy i of a node. */
module Labels {

  function Digit(d: nat): char
    requires d < 10
  {
    '0' + d as char
  }

  /** Decimal notation, as the verb %d prints a non-negative integer. */
  function Decimal(i: nat): string {
    if i < 10 then [Digit(i)] else Decimal(i / 10) + [Digit(i % 10)]
  }

  /** The text produced by the format "%s-%d". */
  function Label(node: string, i: nat): string {
    node + "-" + Decimal(i)
  }

  lemma {:induction false} DecimalDigits(i: nat)
    ensures |Decimal(i)| > 0 && forall c :: c in Decimal(i) ==> '0' <= c <= '9'
  {
    if i >= 10 {
      DecimalDigits(i / 10);
    }
  }

  /** The number that a decimal text denotes. */
  function Denotes(s: string): int {
    if s == [] then 0 else 10 * Denotes(s[..|s| - 1]) + (s[|s| - 1] as int - '0' as int)
  }

  /** Decimal notation denotes the number it was made from, and has no leading zero. */
  lemma {:induction false} DecimalDenotes(i: nat)
    ensures Denotes(Decimal(i)) == i
    ensures i > 0 ==> Decimal(i)[0] != '0'
  {
    if i >= 10 {
      var s := Decimal(i);
      assert s[..|s| - 1] == Decimal(i / 10);
      DecimalDenotes(i / 10);
      DecimalDigits(i / 10);
    }
  }

  /** A label is the node's name, a dash, and digits that denote the index. */
  lemma LabelReads(node: string, i: nat)
    ensures var s := Label(node, i);
      && |s| > |node| + 1 && s[..|node|] == node && s[|node|] == '-' && Denotes(s[|node| + 1..]) == i
      && (forall k :: |node| < k < |s| ==> '0' <= s[k] <= '9')
      && (s[|node| + 1] == '0' ==> |s| == |node| + 2)
  {
    DecimalDigits(i);
    DecimalDenotes(i);
    var s := Label(node, i);
    assert s[|node| + 1..] == Decimal(i);
    forall k | |node| < k < |s| ensures '0' <= s[k] <= '9' {
      assert s[k] == Decimal(i)[k - |node| - 1] && s[k] in Decimal(i);
    }
  }

  /** Two virtual nodes share a label only when they are the same virtual node, whatever the node
      names contain. */
  lemma LabelInjective(m: string, i: nat, n: string, j: nat)
    ensures Label(m, i) == Label(n, j) <==> m == n && i == j
  {
    if Label(m, i) == Label(n, j) {
      LabelReads(m, i);
      LabelReads(n, j);
      var s := Label(m, i);
      assert |m| == |n|;
    }
  }
}
