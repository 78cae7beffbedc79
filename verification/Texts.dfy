/** The order of texts: character by character, a text before its extensions. */
module Texts {
  predicate TextLe(a: string, b: string) {
    a == "" || (b != "" && (a[0] < b[0] || (a[0] == b[0] && TextLe(a[1..], b[1..]))))
  }

  /** The first difference decides, and a text comes before all its extensions. */
  lemma {:induction false} TextLeIs(a: string, b: string)
    ensures TextLe(a, b) <==> a <= b || exists i :: 0 <= i < |a| && i < |b| && a[..i] == b[..i] && a[i] < b[i]
  {
    if a != "" && b != "" && a[0] == b[0] {
      TextLeIs(a[1..], b[1..]);
      assert a == [a[0]] + a[1..] && b == [b[0]] + b[1..];
      if i :| 0 <= i < |a[1..]| && i < |b[1..]| && a[1..][..i] == b[1..][..i] && a[1..][i] < b[1..][i] {
        assert a[..i + 1] == [a[0]] + a[1..][..i] && b[..i + 1] == [b[0]] + b[1..][..i];
        assert a[i + 1] < b[i + 1];
      }
      if i :| 0 <= i < |a| && i < |b| && a[..i] == b[..i] && a[i] < b[i] {
        assert i > 0;
        assert a[1..][..i - 1] == a[..i][1..] && b[1..][..i - 1] == b[..i][1..];
        assert a[1..][i - 1] < b[1..][i - 1];
      }
    } else if a != "" && b != "" {
      assert a[..0] == b[..0];
      if i :| 0 <= i < |a| && i < |b| && a[..i] == b[..i] && a[i] < b[i] {
        assert i > 0 ==> a[..i][0] == b[..i][0];
      }
    }
  }

  lemma {:induction false} TextRefl(a: string)
    ensures TextLe(a, a)
  {
    if a != "" {
      TextRefl(a[1..]);
    }
  }

  lemma {:induction false} TextTotal(a: string, b: string)
    ensures TextLe(a, b) || TextLe(b, a)
  {
    if a != "" && b != "" {
      TextTotal(a[1..], b[1..]);
    }
  }

  lemma {:induction false} TextTrans(a: string, b: string, c: string)
    requires TextLe(a, b) && TextLe(b, c)
    ensures TextLe(a, c)
  {
    if a != "" && a[0] == b[0] == c[0] {
      TextTrans(a[1..], b[1..], c[1..]);
    }
  }

  /** A finite set of texts has a first one. */
  lemma {:induction false} HasFirst(names: set<string>) returns (n: string)
    requires names != {}
    ensures n in names && forall m :: m in names ==> TextLe(n, m)
  {
    var x :| x in names;
    var rest := names - {x};
    assert forall m :: m in names ==> m == x || m in rest;
    TextRefl(x);
    n := x;
    if rest != {} {
      var first := HasFirst(rest);
      TextTotal(x, first);
      if TextLe(first, x) {
        n := first;
      } else {
        forall m | m in rest
          ensures TextLe(x, m)
        {
          TextTrans(x, first, m);
        }
      }
    }
  }
}
