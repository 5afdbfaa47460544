/**
 * The table of open portfolio windows kept by the home page
 * (src/app/page.tsx): `openWindows` and the z-order counter `maxZ`.
 * Each React state update is a field assignment and each handler one method call.
 */
module WindowRegistry {
  import opened Types
  import Lists

  datatype OpenWindow = OpenWindow(person: Person, zIndex: int)

  /** The counter's initial value, `useState(100)`. */
  const InitialMaxZ: int := 100

  /** `ws.some((w) => w.person.id === id)`. */
  predicate HasPerson(ws: seq<OpenWindow>, id: string) {
    exists i :: 0 <= i < |ws| && ws[i].person.id == id
  }

  predicate UniqueIds(ws: seq<OpenWindow>) {
    forall i, j :: 0 <= i < j < |ws| ==> ws[i].person.id != ws[j].person.id
  }

  predicate AllAtMost(ws: seq<OpenWindow>, z: int) {
    forall i :: 0 <= i < |ws| ==> ws[i].zIndex <= z
  }

  /** `ws.map((w) => w.person.id === id ? { ...w, zIndex: z } : w)`. */
  function Raise(ws: seq<OpenWindow>, id: string, z: int): seq<OpenWindow> {
    if ws == [] then []
    else [if ws[0].person.id == id then ws[0].(zIndex := z) else ws[0]] + Raise(ws[1..], id, z)
  }

  /** `ws.filter((w) => w.person.id !== id)`. */
  function Without(ws: seq<OpenWindow>, id: string): seq<OpenWindow> {
    if ws == [] then []
    else (if ws[0].person.id == id then [] else [ws[0]]) + Without(ws[1..], id)
  }

  /** Raising keeps every window in place and changes only the z-index of the windows with that id. */
  lemma {:induction false} RaiseAt(ws: seq<OpenWindow>, id: string, z: int)
    ensures |Raise(ws, id, z)| == |ws|
    ensures forall i :: 0 <= i < |ws| ==>
      Raise(ws, id, z)[i] == if ws[i].person.id == id then ws[i].(zIndex := z) else ws[i]
  {
    if ws != [] {
      RaiseAt(ws[1..], id, z);
      var r := Raise(ws, id, z);
      forall i | 1 <= i < |ws| ensures r[i] == Raise(ws[1..], id, z)[i - 1] { }
    }
  }

  lemma HasPersonCons(ws: seq<OpenWindow>, id: string)
    requires ws != []
    ensures HasPerson(ws, id) <==> ws[0].person.id == id || HasPerson(ws[1..], id)
  {
    if HasPerson(ws, id) {
      var k :| 0 <= k < |ws| && ws[k].person.id == id;
      if k > 0 { assert ws[1..][k - 1] == ws[k]; }
    }
    if HasPerson(ws[1..], id) {
      var k :| 0 <= k < |ws[1..]| && ws[1..][k].person.id == id;
      assert ws[k + 1] == ws[1..][k];
    }
  }

  /** With unique ids, the tail has unique ids and none of them is the head's. */
  lemma UniqueTail(ws: seq<OpenWindow>)
    requires ws != [] && UniqueIds(ws)
    ensures UniqueIds(ws[1..])
    ensures forall w :: w in ws[1..] ==> w.person.id != ws[0].person.id
  {
    forall i, j | 0 <= i < j < |ws[1..]| ensures ws[1..][i].person.id != ws[1..][j].person.id {
      assert ws[1..][i] == ws[i + 1] && ws[1..][j] == ws[j + 1];
    }
    forall w | w in ws[1..] ensures w.person.id != ws[0].person.id {
      var m :| 0 <= m < |ws[1..]| && ws[1..][m] == w;
      assert ws[m + 1] == w;
    }
  }

  /** Putting a window with a fresh id in front of a list with unique ids keeps them unique. */
  lemma UniqueCons(w: OpenWindow, rest: seq<OpenWindow>)
    requires UniqueIds(rest)
    requires forall v :: v in rest ==> v.person.id != w.person.id
    ensures UniqueIds([w] + rest)
  {
    var r := [w] + rest;
    forall i, j | 0 <= i < j < |r| ensures r[i].person.id != r[j].person.id {
      assert r[j] == rest[j - 1];
      if i > 0 {
        assert r[i] == rest[i - 1];
      }
    }
  }

  /**
   * Closing keeps, in order, exactly the windows of other people; with unique
   * ids it removes one window when the person was open and none otherwise.
   */
  lemma {:induction false} WithoutSpec(ws: seq<OpenWindow>, id: string)
    ensures Lists.IsSubsequence(Without(ws, id), ws)
    ensures forall w :: w in Without(ws, id) <==> w in ws && w.person.id != id
    ensures UniqueIds(ws) ==> UniqueIds(Without(ws, id))
    ensures UniqueIds(ws) ==> |Without(ws, id)| == |ws| - (if HasPerson(ws, id) then 1 else 0)
  {
    if ws != [] {
      var rest := Without(ws[1..], id);
      WithoutSpec(ws[1..], id);
      assert forall w :: w in ws <==> w == ws[0] || w in ws[1..];
      if ws[0].person.id == id {
        assert Without(ws, id) == rest;
      } else {
        assert Without(ws, id) == [ws[0]] + rest;
        assert ([ws[0]] + rest)[1..] == rest;
      }
      if UniqueIds(ws) {
        UniqueTail(ws);
        HasPersonCons(ws, id);
        if ws[0].person.id == id {
          assert !HasPerson(ws[1..], id) by {
            forall k | 0 <= k < |ws[1..]| ensures ws[1..][k].person.id != id {
              assert ws[1..][k] in ws[1..];
            }
          }
        } else {
          UniqueCons(ws[0], rest);
        }
      }
    }
  }

  /** The registry of open windows; `Valid` is the invariant every handler keeps. */
  class Desktop {
    var openWindows: seq<OpenWindow>
    var maxZ: int

    ghost predicate Valid()
      reads this
    {
      && InitialMaxZ <= maxZ
      && UniqueIds(openWindows)
      && AllAtMost(openWindows, maxZ)
    }

    constructor()
      ensures Valid()
      ensures openWindows == [] && maxZ == InitialMaxZ
    {
      openWindows := [];
      maxZ := InitialMaxZ;
    }

    /**
     * `handlePersonClick`: an already open person's window is brought to the
     * front instead of being opened twice; otherwise a window is appended on top.
     */
    method PersonClick(person: Person)
      requires Valid()
      modifies this
      ensures Valid()
      ensures maxZ == old(maxZ) + 1
      ensures HasPerson(old(openWindows), person.id) ==>
        openWindows == Raise(old(openWindows), person.id, maxZ)
      ensures !HasPerson(old(openWindows), person.id) ==>
        openWindows == old(openWindows) + [OpenWindow(person, maxZ)]
      ensures |openWindows| == |old(openWindows)| + (if HasPerson(old(openWindows), person.id) then 0 else 1)
      ensures HasPerson(openWindows, person.id)
      ensures forall i :: 0 <= i < |openWindows| ==>
        (openWindows[i].person.id == person.id <==> openWindows[i].zIndex == maxZ)
    {
      if exists i :: 0 <= i < |openWindows| && openWindows[i].person.id == person.id {
        var z := maxZ + 1;
        RaiseAt(openWindows, person.id, z);
        maxZ := z;
        openWindows := Raise(openWindows, person.id, maxZ);
      } else {
        var newZ := maxZ + 1;
        maxZ := newZ;
        openWindows := openWindows + [OpenWindow(person, newZ)];
        assert openWindows[|openWindows| - 1].person.id == person.id;
      }
    }

    /** `handleFocusWindow`: the focused window goes strictly above every other; nothing else moves. */
    method FocusWindow(id: string)
      requires Valid()
      modifies this
      ensures Valid()
      ensures maxZ == old(maxZ) + 1
      ensures openWindows == Raise(old(openWindows), id, maxZ)
      ensures |openWindows| == |old(openWindows)|
      ensures forall i :: 0 <= i < |openWindows| ==>
        openWindows[i].person == old(openWindows)[i].person
      ensures forall i :: 0 <= i < |openWindows| && openWindows[i].person.id != id ==>
        openWindows[i] == old(openWindows)[i] && openWindows[i].zIndex < maxZ
      ensures forall i :: 0 <= i < |openWindows| && openWindows[i].person.id == id ==>
        openWindows[i].zIndex == maxZ
    {
      var newZ := maxZ + 1;
      RaiseAt(openWindows, id, newZ);
      maxZ := newZ;
      openWindows := Raise(openWindows, id, newZ);
    }

    /** `handleCloseWindow`: drops that person's window; the counter is untouched. */
    method CloseWindow(id: string)
      requires Valid()
      modifies this`openWindows
      ensures Valid()
      ensures openWindows == Without(old(openWindows), id)
      ensures !HasPerson(openWindows, id)
      ensures |openWindows| == |old(openWindows)| - (if HasPerson(old(openWindows), id) then 1 else 0)
    {
      WithoutSpec(openWindows, id);
      openWindows := Without(openWindows, id);
      assert forall i :: 0 <= i < |openWindows| ==> openWindows[i] in old(openWindows);
    }
  }

  /** Clicking a person twice leaves one window for them, on top. */
  method ClickTwice(a: Person, b: Person) returns (count: nat, topZ: int)
    ensures a.id == b.id ==> count == 1
    ensures a.id != b.id ==> count == 2
    ensures topZ == InitialMaxZ + 2
  {
    var desk := new Desktop();
    desk.PersonClick(a);
    desk.PersonClick(b);
    count := |desk.openWindows|;
    topZ := desk.maxZ;
  }
}
