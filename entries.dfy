/**
 The list of numbers that the admin pages manage, and the four transforms that
 the POST routes apply to it before writing it back (api/app.js, lines 111-161).
 Every transform produces a new document; the one that the source writes with
 `push` works on a freshly loaded array that nothing else holds, so returning
 the extended sequence is the same thing.
 */
module Entries {

  /** Status literals used by the routes. */
  const Active: string := "aktif"
  const Blocked: string := "blokir"

  /** One record of database.json: a number (`nomor`) and its status. */
  datatype Entry = Entry(nomor: string, status: string)

  /** database.json: an ordered array of entries, duplicates allowed. */
  type Document = seq<Entry>

  /** A field of the urlencoded request body: absent, or present with a text. */
  datatype Param = Missing | Given(text: string)

  /** JavaScript truthiness of a body field: present and not the empty string. */
  predicate Truthy(p: Param)
    ensures Truthy(p) ==> p.Given?
    ensures p.Given? ==> (Truthy(p) <==> |p.text| > 0)
  {
    p.Given? && p.text != ""
  }

  /** `item.nomor === p`: a stored nomor is a string, so it never equals an absent field. */
  predicate Matches(e: Entry, p: Param)
    ensures p.Missing? ==> !Matches(e, p)
    ensures p.Given? ==> (Matches(e, p) <==> e.nomor == p.text)
  {
    p.Given? && e.nomor == p.text
  }

  /** Text of a body field in a template literal (`${nomor}`). */
  function ParamText(p: Param): (r: string)
    ensures p.Given? ==> r == p.text
    ensures p.Missing? ==> r == "undefined"
  {
    match p
    case Missing => "undefined"
    case Given(t) => t
  }

  // ---------------------------------------------------------------- add

  /** POST /admin/add: append an active entry when the field is truthy, else keep the list. */
  function Add(d: Document, nomor: Param): (r: Document)
    ensures Truthy(nomor) ==> |r| == |d| + 1 && r[..|d|] == d && r[|d|] == Entry(nomor.text, Active)
    ensures !Truthy(nomor) ==> r == d
  {
    if Truthy(nomor) then d + [Entry(nomor.text, Active)] else d
  }

  // ---------------------------------------------------------------- delete

  /** POST /admin/delete: keep exactly the entries whose nomor differs from the field. */
  function Delete(d: Document, nomor: Param): (r: Document)
    ensures |r| <= |d|
    ensures forall i :: 0 <= i < |r| ==> !Matches(r[i], nomor)
  {
    if d == [] then []
    else if Matches(d[0], nomor) then Delete(d[1..], nomor)
    else [d[0]] + Delete(d[1..], nomor)
  }

  /** Delete drops every copy of a matching entry and keeps every copy of any other. */
  lemma {:induction false} DeleteCounts(d: Document, nomor: Param)
    ensures forall e :: multiset(Delete(d, nomor))[e] == if Matches(e, nomor) then 0 else multiset(d)[e]
  {
    if d != [] {
      assert d == [d[0]] + d[1..];
      DeleteCounts(d[1..], nomor);
    }
  }

  /** Delete works piecewise, which is what keeps the survivors in their original order. */
  lemma {:induction false} DeleteConcat(a: Document, b: Document, nomor: Param)
    ensures Delete(a + b, nomor) == Delete(a, nomor) + Delete(b, nomor)
  {
    if a == [] {
      assert a + b == b;
    } else {
      var ab := a + b;
      assert ab != [] && ab[0] == a[0] && ab[1..] == a[1..] + b;
      DeleteConcat(a[1..], b, nomor);
      if Matches(a[0], nomor) {
        assert Delete(ab, nomor) == Delete(a[1..] + b, nomor);
      } else {
        assert Delete(ab, nomor) == [a[0]] + Delete(a[1..] + b, nomor);
        assert Delete(a, nomor) == [a[0]] + Delete(a[1..], nomor);
      }
    }
  }

  /** Deleting changes nothing exactly when no entry carries that nomor. */
  lemma {:induction false} DeleteUnchangedIff(d: Document, nomor: Param)
    ensures Delete(d, nomor) == d <==> forall i :: 0 <= i < |d| ==> !Matches(d[i], nomor)
  {
    if forall i :: 0 <= i < |d| ==> !Matches(d[i], nomor) {
      DeleteNothing(d, nomor);
    } else {
      var i :| 0 <= i < |d| && Matches(d[i], nomor);
      DeleteCounts(d, nomor);
      assert d[i] in multiset(d);
      assert multiset(Delete(d, nomor))[d[i]] == 0;
    }
  }

  lemma {:induction false} DeleteNothing(d: Document, nomor: Param)
    requires forall i :: 0 <= i < |d| ==> !Matches(d[i], nomor)
    ensures Delete(d, nomor) == d
  {
    if d != [] {
      assert forall i :: 0 <= i < |d[1..]| ==> !Matches(d[1..][i], nomor) by {
        forall i | 0 <= i < |d[1..]| ensures !Matches(d[1..][i], nomor) {
          assert d[1..][i] == d[i + 1];
        }
      }
      DeleteNothing(d[1..], nomor);
    }
  }

  /** A second delete of the same nomor is a no-op. */
  lemma DeleteIdempotent(d: Document, nomor: Param)
    ensures Delete(Delete(d, nomor), nomor) == Delete(d, nomor)
  {
    DeleteNothing(Delete(d, nomor), nomor);
  }

  // ---------------------------------------------------------------- block

  /** The arrow function of the block route, on one item. */
  function BlockEntry(e: Entry, nomor: Param): (r: Entry)
    ensures r.nomor == e.nomor
    ensures Matches(e, nomor) ==> r.status == Blocked
    ensures !Matches(e, nomor) ==> r == e
  {
    if Matches(e, nomor) then e.(status := Blocked) else e
  }

  /** POST /admin/block: matching entries become blocked, all others stay as they were. */
  function Block(d: Document, nomor: Param): (r: Document)
    ensures |r| == |d|
    ensures forall i :: 0 <= i < |d| ==> r[i].nomor == d[i].nomor
    ensures forall i :: 0 <= i < |d| && Matches(d[i], nomor) ==> r[i].status == Blocked
    ensures forall i :: 0 <= i < |d| && !Matches(d[i], nomor) ==> r[i] == d[i]
  {
    if d == [] then [] else [BlockEntry(d[0], nomor)] + Block(d[1..], nomor)
  }

  /** Blocking twice is blocking once. */
  lemma {:induction false} BlockIdempotent(d: Document, nomor: Param)
    ensures Block(Block(d, nomor), nomor) == Block(d, nomor)
  {
    var once := Block(d, nomor);
    var twice := Block(once, nomor);
    assert |twice| == |once|;
    forall i | 0 <= i < |once| ensures twice[i] == once[i] {
      if Matches(once[i], nomor) {
        assert Matches(d[i], nomor);
        assert d[i].(status := Blocked) == once[i];
      }
    }
  }

  /** Blocking changes nothing exactly when every matching entry is already blocked. */
  lemma BlockUnchangedIff(d: Document, nomor: Param)
    ensures Block(d, nomor) == d <==>
            forall i :: 0 <= i < |d| && Matches(d[i], nomor) ==> d[i].status == Blocked
  {
    var r := Block(d, nomor);
    if forall i :: 0 <= i < |d| && Matches(d[i], nomor) ==> d[i].status == Blocked {
      forall i | 0 <= i < |d| ensures r[i] == d[i] {
        if Matches(d[i], nomor) {
          assert r[i].status == d[i].status && r[i].nomor == d[i].nomor;
        }
      }
    }
  }

  /** Deleting a number after blocking it removes the same entries as deleting it outright. */
  lemma {:induction false} DeleteAfterBlock(d: Document, nomor: Param)
    ensures Delete(Block(d, nomor), nomor) == Delete(d, nomor)
  {
    if d != [] {
      var b := Block(d, nomor);
      assert b[0] == BlockEntry(d[0], nomor) && b[1..] == Block(d[1..], nomor);
      assert Matches(b[0], nomor) == Matches(d[0], nomor);
      DeleteAfterBlock(d[1..], nomor);
    }
  }

  // ---------------------------------------------------------------- edit

  /** The arrow function of the edit route, on one item. */
  function RenameEntry(e: Entry, oldNomor: Param, newNomor: string): (r: Entry)
    ensures r.status == e.status
    ensures Matches(e, oldNomor) ==> r.nomor == newNomor
    ensures !Matches(e, oldNomor) ==> r == e
  {
    if Matches(e, oldNomor) then e.(nomor := newNomor) else e
  }

  /** POST /admin/edit: every entry with the old nomor gets the new one; statuses never change. */
  function Edit(d: Document, oldNomor: Param, newNomor: string): (r: Document)
    ensures |r| == |d|
    ensures forall i :: 0 <= i < |d| ==> r[i].status == d[i].status
    ensures forall i :: 0 <= i < |d| && Matches(d[i], oldNomor) ==> r[i].nomor == newNomor
    ensures forall i :: 0 <= i < |d| && !Matches(d[i], oldNomor) ==> r[i] == d[i]
  {
    if d == [] then [] else [RenameEntry(d[0], oldNomor, newNomor)] + Edit(d[1..], oldNomor, newNomor)
  }

  /** Renaming back undoes a rename, provided the new nomor was not in use before. */
  lemma {:induction false} EditRoundTrip(d: Document, a: string, b: string)
    requires forall i :: 0 <= i < |d| ==> d[i].nomor != b
    ensures Edit(Edit(d, Given(a), b), Given(b), a) == d
  {
    if d != [] {
      var t := d[1..];
      assert forall i :: 0 <= i < |t| ==> t[i].nomor != b by {
        forall i | 0 <= i < |t| ensures t[i].nomor != b {
          assert t[i] == d[i + 1];
        }
      }
      EditRoundTrip(t, a, b);
      var there := Edit(d, Given(a), b);
      assert there == [RenameEntry(d[0], Given(a), b)] + Edit(t, Given(a), b);
      assert there[0] == RenameEntry(d[0], Given(a), b) && there[1..] == Edit(t, Given(a), b);
      assert RenameEntry(there[0], Given(b), a) == d[0];
    }
  }

  /** Renaming changes nothing exactly when every matching entry already carries the new nomor. */
  lemma EditUnchangedIff(d: Document, oldNomor: Param, newNomor: string)
    ensures Edit(d, oldNomor, newNomor) == d <==>
            forall i :: 0 <= i < |d| && Matches(d[i], oldNomor) ==> d[i].nomor == newNomor
  {
    var r := Edit(d, oldNomor, newNomor);
    if forall i :: 0 <= i < |d| && Matches(d[i], oldNomor) ==> d[i].nomor == newNomor {
      forall i | 0 <= i < |d| ensures r[i] == d[i] {
        if Matches(d[i], oldNomor) {
          assert r[i].status == d[i].status && r[i].nomor == d[i].nomor;
        }
      }
    }
  }

  /** Renaming to a number that is already present is accepted and yields a duplicate. */
  lemma EditCanDuplicate(d: Document, i: nat, j: nat, a: string, b: string)
    requires i < |d| && j < |d| && i != j
    requires d[i].nomor == a && d[j].nomor == b
    ensures var r := Edit(d, Given(a), b);
            r[i].nomor == b && r[j].nomor == b
  {
  }

  // ---------------------------------------------------------------- scenario

  /** Block then add, from the one-entry document [0811 active]. */
  lemma BlockThenAddScenario()
    ensures Block([Entry("0811", Active)], Given("0811")) == [Entry("0811", Blocked)]
    ensures Add([Entry("0811", Blocked)], Given("0822")) == [Entry("0811", Blocked), Entry("0822", Active)]
  {
  }
}
