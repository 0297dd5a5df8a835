/**
 The server-sent-events subscribers and the module-level `clients` list of
 api/app.js (lines 20-21, 64-78). A subscriber is the response object of one
 open GET /events request; its only observable behaviour is the text written
 to it. The list is compared by object identity (`client !== res`), so it is
 a sequence of references, and it may hold the same reference twice.
 */
module Subscriptions {

  /** One open event stream: everything written to it so far, in order. */
  class Subscriber {
    var log: seq<string>

    constructor ()
      ensures log == []
    {
      log := [];
    }

    /** `client.write(text)`. */
    method Write(text: string)
      modifies this
      ensures log == old(log) + [text]
    {
      log := log + [text];
    }
  }

  /** `s.filter(x => x !== h)`: every copy of h goes, the rest keep their order. */
  function Without<T(==)>(s: seq<T>, h: T): (r: seq<T>)
    ensures |r| <= |s|
    ensures h !in r
    ensures forall x :: x in r ==> x in s
  {
    if s == [] then []
    else if s[0] == h then Without(s[1..], h)
    else [s[0]] + Without(s[1..], h)
  }

  /** Without removes all copies of h and no copy of anything else. */
  lemma {:induction false} WithoutCounts<T>(s: seq<T>, h: T)
    ensures forall x :: multiset(Without(s, h))[x] == if x == h then 0 else multiset(s)[x]
  {
    if s != [] {
      assert s == [s[0]] + s[1..];
      WithoutCounts(s[1..], h);
    }
  }

  /** Without works piecewise, so the survivors keep their relative order. */
  lemma {:induction false} WithoutConcat<T>(a: seq<T>, b: seq<T>, h: T)
    ensures Without(a + b, h) == Without(a, h) + Without(b, h)
  {
    if a == [] {
      assert a + b == b;
    } else {
      var ab := a + b;
      assert ab[0] == a[0] && ab[1..] == a[1..] + b;
      var head := if a[0] == h then [] else [a[0]];
      assert Without(ab, h) == head + Without(a[1..] + b, h);
      assert Without(a, h) == head + Without(a[1..], h);
      WithoutConcat(a[1..], b, h);
      assert Without(ab, h) == head + (Without(a[1..], h) + Without(b, h));
    }
  }

  /** Removing a handle changes the list exactly when the handle is in it. */
  lemma {:induction false} WithoutUnchangedIff<T>(s: seq<T>, h: T)
    ensures Without(s, h) == s <==> h !in s
  {
    if h !in s {
      WithoutAbsent(s, h);
    }
  }

  lemma {:induction false} WithoutAbsent<T>(s: seq<T>, h: T)
    requires h !in s
    ensures Without(s, h) == s
  {
    if s != [] {
      assert s[0] != h;
      assert h !in s[1..];
      WithoutAbsent(s[1..], h);
    }
  }

  /** Connecting twice and closing once leaves no copy; a second close is a no-op. */
  lemma AddTwiceRemove<T>(s: seq<T>, h: T)
    ensures Without(s + [h] + [h], h) == Without(s, h)
    ensures Without(Without(s, h), h) == Without(s, h)
  {
    WithoutConcat(s + [h], [h], h);
    WithoutConcat(s, [h], h);
    assert Without([h], h) == [];
    WithoutAbsent(Without(s, h), h);
  }

  /** True when no handle occurs twice. */
  predicate Distinct<T(==)>(s: seq<T>) {
    forall i, j :: 0 <= i < j < |s| ==> s[i] != s[j]
  }

  /** In a list without duplicates a member occurs exactly once. */
  lemma {:induction false} DistinctOnce<T>(s: seq<T>, h: T)
    requires Distinct(s) && h in s
    ensures multiset(s)[h] == 1
  {
    assert s == [s[0]] + s[1..];
    assert Distinct(s[1..]) by {
      forall i, j | 0 <= i < j < |s[1..]| ensures s[1..][i] != s[1..][j] {
        assert s[1..][i] == s[i + 1] && s[1..][j] == s[j + 1];
      }
    }
    if s[0] == h {
      assert h !in s[1..] by {
        forall k | 0 <= k < |s[1..]| ensures s[1..][k] != h {
          assert s[1..][k] == s[k + 1];
        }
      }
    } else {
      DistinctOnce(s[1..], h);
    }
  }

  /** Connecting a handle that is not listed yet keeps the list free of duplicates. */
  lemma DistinctAdd<T>(s: seq<T>, h: T)
    requires Distinct(s) && h !in s
    ensures Distinct(s + [h])
  {
  }

  /** Closing never introduces a duplicate. */
  lemma {:induction false} DistinctWithout<T>(s: seq<T>, h: T)
    requires Distinct(s)
    ensures Distinct(Without(s, h))
  {
    if s != [] {
      var t := s[1..];
      assert Distinct(t) by {
        forall i, j | 0 <= i < j < |t| ensures t[i] != t[j] {
          assert t[i] == s[i + 1] && t[j] == s[j + 1];
        }
      }
      DistinctWithout(t, h);
      if s[0] != h {
        assert s[0] !in t by {
          forall k | 0 <= k < |t| ensures t[k] != s[0] {
            assert t[k] == s[k + 1];
          }
        }
        var r := Without(t, h);
        assert s[0] !in r;
        assert Without(s, h) == [s[0]] + r;
      }
    }
  }

  /** The `clients` list. */
  class Registry {
    var clients: seq<Subscriber>

    /** `let clients = []`. */
    constructor ()
      ensures clients == []
    {
      clients := [];
    }

    /** On connect, `clients.push(res)`: appended at the end, even if already present. */
    method Add(h: Subscriber)
      modifies this
      ensures clients == old(clients) + [h]
    {
      clients := clients + [h];
    }

    /** On close, `clients = clients.filter(client => client !== res)`. */
    method Remove(h: Subscriber)
      modifies this
      ensures clients == Without(old(clients), h)
      ensures h !in clients
      ensures forall x :: x != h ==> multiset(clients)[x] == multiset(old(clients))[x]
    {
      WithoutCounts(clients, h);
      clients := Without(clients, h);
    }
  }
}
