/**
 * The admin page's state (`AdminPage` in src/app/admin/page.tsx): the
 * password gate, the edited list of people with its selection, and the save
 * round trip.  The fetches are split into the request a handler sends and a
 * later call that receives the response.
 */
module AdminPage {
  import opened Wrappers
  import opened Types
  import opened Text
  import opened Lists
  import opened AdminEdit
  import AdminRoute

  /** `handleLogin`'s message for a response status; `None` means the login goes on to read the body. */
  function LoginError(status: int): (r: Option<string>)
    ensures r.None? <==> 200 <= status <= 299
    ensures status == 401 ==> r == Some("Wrong password.")
  {
    if status == 401 then Some("Wrong password.")
    else if !(200 <= status <= 299) then Some("Server error. Try again.")
    else None
  }

  /** How the save request ended: its JSON was read (with `res.ok` and `data.error`), or something was thrown. */
  datatype SaveReply = Answered(ok: bool, error: Option<string>) | Threw(thrown: AdminRoute.Thrown)

  /** The message `handleSave` leaves in `saveMsg`. */
  function SaveMessage(reply: SaveReply): string {
    match reply
    case Answered(ok, error) =>
      if ok then "Saved successfully!"
      else "Error: " + (if error.Some? && error.value != [] then error.value else "Save failed")
    case Threw(t) =>
      match t
      case ErrorThrown(m) => "Error: " + m
      case OtherThrown => "Save failed."
  }

  /**
   * The page colours a message red when it starts with "Error": that is every
   * failed save except one that threw a non-`Error` value, whose "Save failed."
   * is shown in the success colour.
   */
  lemma SaveMessageColour(reply: SaveReply)
    ensures IsPrefix("Error", SaveMessage(reply)) <==>
      !(reply.Answered? && reply.ok) && reply != Threw(AdminRoute.OtherThrown)
    ensures reply.Answered? && reply.ok <==> SaveMessage(reply) == "Saved successfully!"
  {
    match reply
    case Answered(ok, error) =>
      if !ok {
        var m := "Error: " + (if error.Some? && error.value != [] then error.value else "Save failed");
        assert m[..5] == "Error";
        assert m[0] != "Saved successfully!"[0];
      } else {
        assert "Saved successfully!"[..5] != "Error" by { assert "Saved successfully!"[1] != "Error"[1]; }
      }
    case Threw(t) =>
      if t.ErrorThrown? {
        assert ("Error: " + t.message)[..5] == "Error";
        assert ("Error: " + t.message)[0] != "Saved successfully!"[0];
      } else {
        assert "Save failed."[..5] != "Error" by { assert "Save failed."[0] != "Error"[0]; }
        assert "Save failed."[4] != "Saved successfully!"[4];
      }
  }

  /** A failed save reports the route's error text when there is one, else "Save failed". */
  lemma SaveMessageCarriesError(ok: bool, error: string)
    requires !ok && error != []
    ensures SaveMessage(Answered(ok, Some(error))) == "Error: " + error
    ensures Contains(SaveMessage(Answered(ok, Some(error))), error)
  {
    ContainsInfix("Error: ", error, []);
    assert "Error: " + error + [] == "Error: " + error;
  }

  /** How the page reads the JSON of a successful GET: an array of people, or not an array. */
  function LoadedOf(p: AdminRoute.Payload): (r: Loaded)
    ensures r.PeopleArray? <==> p.PeoplePayload?
    ensures p.PeoplePayload? ==> r.people == p.people
  {
    if p.PeoplePayload? then PeopleArray(p.people) else NotAnArray
  }

  /** The body `handleSave` posts. */
  datatype SaveRequest = SaveRequest(password: string, people: seq<Person>)

  class Page {
    var pw: string
    var authed: bool
    var authError: string
    var people: seq<Person>
    var selectedIdx: nat
    var saving: bool
    var saveMsg: string
    var password: string

    /** The selection always names a person, or is 0 when there is none; nothing is loaded before login. */
    ghost predicate Valid()
      reads this
    {
      && (people == [] ==> selectedIdx == 0)
      && (people != [] ==> selectedIdx < |people|)
      && (!authed ==> people == [] && !saving)
    }

    constructor ()
      ensures Valid()
      ensures pw == [] && !authed && authError == [] && people == [] && selectedIdx == 0
      ensures !saving && saveMsg == [] && password == []
    {
      pw, authed, authError, people, selectedIdx := [], false, [], [], 0;
      saving, saveMsg, password := false, [], [];
    }

    /** The password field's `onChange`. */
    method TypePassword(v: string)
      modifies this`pw
      ensures pw == v
    {
      pw := v;
    }

    /**
     * `handleLogin`, given the GET's status and JSON (`None` when reading the
     * JSON throws, which leaves the page as it was apart from the cleared
     * error).  A 2xx with readable JSON loads the merged people, remembers the
     * password for saving and selects the first person.
     */
    method Login(status: int, json: Option<Loaded>, seeds: seq<Person>)
      requires Valid() && !authed
      modifies this`authError, this`people, this`password, this`authed, this`selectedIdx
      ensures Valid()
      ensures authError == LoginError(status).GetOr([])
      ensures authed <==> LoginError(status).None? && json.Some?
      ensures authed ==> people == Merge(json.value, seeds) && password == pw && selectedIdx == 0
      ensures !authed ==> people == old(people) && password == old(password) && selectedIdx == old(selectedIdx)
    {
      authError := [];
      var e := LoginError(status);
      if e.Some? {
        authError := e.value;
        return;
      }
      if json.None? {
        return;
      }
      people := Merge(json.value, seeds);
      password := pw;
      authed := true;
      selectedIdx := 0;
    }

    /** A sidebar button: select person `i`. */
    method Select(i: nat)
      requires Valid() && i < |people|
      modifies this`selectedIdx
      ensures Valid() && selectedIdx == i
    {
      selectedIdx := i;
    }

    /** "+ Add person": appends one blank person and selects it. */
    method AddPerson(id: string)
      requires Valid() && authed
      modifies this`people, this`selectedIdx
      ensures Valid()
      ensures people == old(people) + [BlankPerson(id)]
      ensures selectedIdx == |people| - 1
    {
      people := people + [BlankPerson(id)];
      selectedIdx := |people| - 1;
    }

    /** The editor's remove: deletes the selected person and moves the selection up one, not below 0. */
    method RemoveSelected()
      requires Valid() && people != []
      modifies this`people, this`selectedIdx
      ensures Valid()
      ensures people == old(people[..selectedIdx] + people[selectedIdx + 1..])
      ensures selectedIdx == if old(selectedIdx) == 0 then 0 else old(selectedIdx) - 1
    {
      RemoveIndexSlices(people, selectedIdx);
      people := RemoveIndex(people, selectedIdx);
      selectedIdx := if selectedIdx == 0 then 0 else selectedIdx - 1;
    }

    /** `updatePerson`: replaces person `idx` only and clears the save message. */
    method UpdatePerson(idx: nat, updated: Person)
      requires Valid() && idx < |people|
      modifies this`people, this`saveMsg
      ensures Valid()
      ensures |people| == |old(people)| && people[idx] == updated
      ensures forall j :: 0 <= j < |people| && j != idx ==> people[j] == old(people[j])
      ensures saveMsg == []
    {
      people := people[idx := updated];
      saveMsg := [];
    }

    /** "Save All" (disabled while saving): posts the remembered password and the whole list. */
    method BeginSave() returns (request: SaveRequest)
      requires Valid() && authed && !saving
      modifies this`saving, this`saveMsg
      ensures Valid() && saving && saveMsg == []
      ensures request == SaveRequest(password, people)
    {
      saving := true;
      saveMsg := [];
      request := SaveRequest(password, people);
    }

    /** The end of `handleSave`: the message for the reply, and the button enabled again. */
    method FinishSave(reply: SaveReply)
      requires Valid() && saving
      modifies this`saving, this`saveMsg
      ensures Valid() && !saving
      ensures saveMsg == SaveMessage(reply)
    {
      saveMsg := SaveMessage(reply);
      saving := false;
    }
  }

  /**
   * Logging in against the admin route and saving straight away: the right
   * password loads the stored people merged with the seeds, and the save then
   * writes exactly that list; a wrong one leaves the gate closed with
   * "Wrong password.".
   */
  method LoginThenSave(env: Option<string>, typed: string, stored: seq<Person>, seeds: seq<Person>,
                       save: AdminRoute.SaveResult)
    returns (authed: bool, authError: string, loaded: seq<Person>, effect: AdminRoute.StoreEffect)
    ensures authed <==> typed == AdminRoute.AdminPassword(env)
    ensures authed ==> loaded == Merge(PeopleArray(stored), seeds) && effect == AdminRoute.WriteAll(loaded)
    ensures !authed ==> authError == "Wrong password." && loaded == [] && effect == AdminRoute.Untouched
  {
    var page := new Page();
    page.TypePassword(typed);
    var get := AdminRoute.Get(env, Some(typed), stored);
    page.Login(get.response.status, Some(LoadedOf(get.response.payload)), seeds);
    authed, authError, loaded := page.authed, page.authError, page.people;
    effect := AdminRoute.Untouched;
    if page.authed {
      var request := page.BeginSave();
      var post := AdminRoute.Post(env, AdminRoute.Parsed(Some(request.password), AdminRoute.AnArray(request.people)), save);
      effect := post.effect;
    }
  }

  /** Adding a person and removing it again restores the list, with the last person selected. */
  method AddThenRemove(env: Option<string>, stored: seq<Person>, seeds: seq<Person>, id: string)
    returns (before: seq<Person>, after: seq<Person>, selected: nat)
    ensures after == before
    ensures selected == if |before| == 0 then 0 else |before| - 1
  {
    var page := new Page();
    page.TypePassword(AdminRoute.AdminPassword(env));
    page.Login(200, Some(PeopleArray(stored)), seeds);
    before := page.people;
    page.AddPerson(id);
    page.RemoveSelected();
    after, selected := page.people, page.selectedIdx;
  }
}
