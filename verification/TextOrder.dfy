/** Lexicographic order of text, as the database and the sorted projections use it. */
module TextOrder {

  predicate Before(a: string, b: string) {
    b != [] && (a == [] || a[0] < b[0] || (a[0] == b[0] && Before(a[1..], b[1..])))
  }

  lemma {:induction false} BeforeIsAsymmetric(a: string, b: string)
    ensures !(Before(a, b) && Before(b, a))
    decreases |a|
  {
    if a != [] && b != [] { BeforeIsAsymmetric(a[1..], b[1..]); }
  }

  lemma {:induction false} BeforeIsTotal(a: string, b: string)
    ensures Before(a, b) || a == b || Before(b, a)
    decreases |a|
  {
    if a != [] && b != [] {
      BeforeIsTotal(a[1..], b[1..]);
      assert a == [a[0]] + a[1..] && b == [b[0]] + b[1..];
    }
  }

  lemma {:induction false} BeforeIsTransitive(a: string, b: string, c: string)
    requires Before(a, b) && Before(b, c)
    ensures Before(a, c)
    decreases |a|
  {
    if a != [] && a[0] == b[0] == c[0] { BeforeIsTransitive(a[1..], b[1..], c[1..]); }
  }

  /** They agree up to `i`, where the first one ends or has the smaller character. */
  ghost predicate DifferAt(a: string, b: string, i: nat) {
    i <= |a| && i < |b| && a[..i] == b[..i] && (i < |a| ==> a[i] < b[i])
  }

  lemma DifferShifts(a: string, b: string, i: nat)
    requires a != [] && b != [] && a[0] == b[0]
    ensures DifferAt(a, b, i + 1) <==> DifferAt(a[1..], b[1..], i)
  {
    if i + 1 <= |a| && i + 1 <= |b| {
      assert a[..i + 1] == [a[0]] + a[1..][..i] && b[..i + 1] == [b[0]] + b[1..][..i];
      if a[..i + 1] == b[..i + 1] {
        assert a[1..][..i] == a[..i + 1][1..] && b[1..][..i] == b[..i + 1][1..];
      }
    }
  }

  /** One text is before another exactly if it is a proper prefix of it or smaller where they first
      differ. */
  lemma {:induction false} BeforeMeans(a: string, b: string)
    ensures Before(a, b) <==> exists i: nat :: DifferAt(a, b, i)
    decreases |a|
  {
    if a != [] && b != [] {
      BeforeMeans(a[1..], b[1..]);
      if a[0] == b[0] {
        forall i: nat
          ensures DifferAt(a, b, i + 1) <==> DifferAt(a[1..], b[1..], i)
        {
          DifferShifts(a, b, i);
        }
        if Before(a, b) {
          var i: nat :| DifferAt(a[1..], b[1..], i);
          assert DifferAt(a, b, i + 1);
        }
        if exists i: nat :: DifferAt(a, b, i) {
          var i: nat :| DifferAt(a, b, i);
          assert i > 0;
          assert DifferAt(a[1..], b[1..], i - 1);
        }
      } else {
        if a[0] < b[0] { assert DifferAt(a, b, 0); }
        assert forall i: nat :: DifferAt(a, b, i) && i > 0 ==> a[..i][0] == b[..i][0];
      }
    } else if b != [] {
      assert DifferAt(a, b, 0);
    }
  }

  /** The first key in iteration order of an ordered map. */
  method LeastKey(keys: set<string>) returns (least: string)
    requires keys != {}
    ensures least in keys && forall id :: id in keys && id != least ==> Before(least, id)
  {
    least :| least in keys;
    var rest := keys - {least};
    while rest != {}
      invariant least in keys && rest <= keys
      invariant forall id :: id in keys && id !in rest && id != least ==> Before(least, id)
    {
      var id :| id in rest;
      BeforeIsTotal(least, id);
      if Before(id, least) {
        forall other | other in keys && other !in rest && other != least
          ensures Before(id, other)
        {
          BeforeIsTransitive(id, least, other);
        }
        least := id;
      }
      rest := rest - {id};
    }
  }
}
