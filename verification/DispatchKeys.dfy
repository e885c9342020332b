/** The idempotency keys as they are stored, one flat string each: when two of them are the same key. */
module DispatchKeys {
  import opened Graph
  import opened Driver

  /** What a key stands for: the task or card of a round, or the closing of that task. */
  datatype Purpose = Sends(kind: Kind) | ClosesTask

  function Tag(p: Purpose): (t: string)
    ensures ':' !in t
  {
    match p
    case Sends(TaskKind) => "task"
    case Sends(CardKind) => "card"
    case ClosesTask => "task-closed"
  }

  lemma TagInjective(p: Purpose, q: Purpose)
    requires Tag(p) == Tag(q)
    ensures p == q
  {
    assert Tag(p)[0] == Tag(q)[0] && |Tag(p)| == |Tag(q)|;
  }

  function Digit(n: nat): char
    requires n < 10
  {
    '0' + n as char
  }

  function Decimal(n: nat): (s: string)
    ensures s != [] && ':' !in s
    ensures |s| == 1 <==> n < 10
  {
    if n < 10 then [Digit(n)] else Decimal(n / 10) + [Digit(n % 10)]
  }

  lemma {:induction false} DecimalInjective(m: nat, n: nat)
    requires Decimal(m) == Decimal(n)
    ensures m == n
  {
    var s, t := Decimal(m), Decimal(n);
    assert s[|s| - 1] == t[|t| - 1];
    assert m < 10 <==> n < 10;
    if m >= 10 {
      assert s[..|s| - 1] == Decimal(m / 10) && t[..|t| - 1] == Decimal(n / 10);
      DecimalInjective(m / 10, n / 10);
    }
  }

  function DispatchKey(instance: string, node: Id, attempt: nat): string {
    instance + ":" + node.text + ":" + Decimal(attempt)
  }

  function KeyText(instance: string, node: Id, attempt: nat, p: Purpose): string {
    DispatchKey(instance, node, attempt) + ":" + Tag(p)
  }

  /** Splitting at the last colon is unambiguous. */
  lemma LastColon(a: string, b: string, c: string, d: string)
    requires a + ":" + b == c + ":" + d && ':' !in b && ':' !in d
    ensures a == c && b == d
  {
    var s := a + ":" + b;
    assert s[|a|] == ':' && s[|c|] == ':';
    assert forall k :: |a| < k < |s| ==> s[k] == b[k - |a| - 1];
    assert forall k :: |c| < k < |s| ==> s[k] == d[k - |c| - 1];
    assert s[..|a|] == a && s[..|c|] == c;
    assert s[|a| + 1..] == b && s[|c| + 1..] == d;
  }

  /** So is splitting at the first. */
  lemma FirstColon(a: string, b: string, c: string, d: string)
    requires a + ":" + b == c + ":" + d && ':' !in a && ':' !in c
    ensures a == c && b == d
  {
    var s := a + ":" + b;
    assert s[|a|] == ':' && s[|c|] == ':';
    assert forall k :: 0 <= k < |a| ==> s[k] == a[k];
    assert forall k :: 0 <= k < |c| ==> s[k] == c[k];
    assert s[..|a|] == a && s[..|c|] == c;
    assert s[|a| + 1..] == b && s[|c| + 1..] == d;
  }

  /** Two keys are the same string exactly when round and purpose agree and the instance and node read the same once
      joined: the instance's and the node's own colons are not told apart from the separator. */
  lemma SameKey(i: string, n: Id, a: nat, p: Purpose, j: string, m: Id, b: nat, q: Purpose)
    ensures KeyText(i, n, a, p) == KeyText(j, m, b, q) <==>
            a == b && p == q && i + ":" + n.text == j + ":" + m.text
  {
    if KeyText(i, n, a, p) == KeyText(j, m, b, q) {
      LastColon(DispatchKey(i, n, a), Tag(p), DispatchKey(j, m, b), Tag(q));
      TagInjective(p, q);
      LastColon(i + ":" + n.text, Decimal(a), j + ":" + m.text, Decimal(b));
      DecimalInjective(a, b);
    }
  }

  /** Within one instance a key names one node, one round, one purpose. */
  lemma KeysOfOneInstance(i: string, n: Id, a: nat, p: Purpose, m: Id, b: nat, q: Purpose)
    requires KeyText(i, n, a, p) == KeyText(i, m, b, q)
    ensures n == m && a == b && p == q
  {
    SameKey(i, n, a, p, i, m, b, q);
    assert (i + ":" + n.text)[|i| + 1..] == n.text && (i + ":" + m.text)[|i| + 1..] == m.text;
  }

  /** Across instances keys are kept apart if instance ids carry no colon, or if node ids carry none. */
  lemma KeysOfTwoInstances(i: string, n: Id, a: nat, p: Purpose, j: string, m: Id, b: nat, q: Purpose)
    requires KeyText(i, n, a, p) == KeyText(j, m, b, q)
    requires (':' !in i && ':' !in j) || (':' !in n.text && ':' !in m.text)
    ensures i == j && n == m && a == b && p == q
  {
    SameKey(i, n, a, p, j, m, b, q);
    if ':' !in i && ':' !in j {
      FirstColon(i, n.text, j, m.text);
    } else {
      LastColon(i, n.text, j, m.text);
    }
  }

  /** Otherwise they may not be: here two instances share one task. */
  lemma KeysMayCollide()
    ensures KeyText("a", Name("b:c"), 0, Sends(TaskKind)) == KeyText("a:b", Name("c"), 0, Sends(TaskKind))
  {
    assert "a" + ":" + "b:c" == "a:b" + ":" + "c";
    SameKey("a", Name("b:c"), 0, Sends(TaskKind), "a:b", Name("c"), 0, Sends(TaskKind));
  }
}
