/**
 * The pure edits behind the admin editor (src/app/admin/page.tsx): blank
 * records, index-based replace / append / remove on a person's socials and
 * projects and on a project's links, field edits, and the merge applied to the
 * people loaded at login.  Fresh ids from `uid()` are parameters.
 */
module AdminEdit {
  import opened Wrappers
  import opened Types
  import opened Lists

  predicate IsBlankProject(p: Project) {
    && p.name == [] && p.dateStarted == [] && p.description == [] && p.links == []
    && (p.dateEnded.None? || p.dateEnded == Some([]))
  }

  /** `blankProject(isCurrent)`: an empty project, with no end date exactly when it is current. */
  function BlankProject(isCurrent: bool, id: string): (r: Project)
    ensures r.id == id && IsBlankProject(r)
    ensures r.dateEnded.None? <==> isCurrent
  {
    Project(id, [], [], if isCurrent then None else Some([]), [], [])
  }

  /** `blankPerson()`: an empty person with no socials and no projects. */
  function BlankPerson(id: string): (r: Person)
    ensures r.id == id && r.name == [] && r.photo == [] && r.bio == []
    ensures r.socials == [] && r.currentProjects == [] && r.pastProjects == []
    ensures r.username.None? && r.introTagline.None?
  {
    Person(id, [], [], [], [], [], [], None, None)
  }

  /* ── Field edits: the `set(key, value)` helpers of the two editors ── */

  datatype PersonField = Name | Photo | Username | IntroTagline | Bio

  function PersonText(p: Person, f: PersonField): Option<string> {
    match f
    case Name => Some(p.name)
    case Photo => Some(p.photo)
    case Username => p.username
    case IntroTagline => p.introTagline
    case Bio => Some(p.bio)
  }

  /** The optional fields store `v || undefined`: an empty input clears them. */
  function SetPersonField(p: Person, f: PersonField, v: string): (r: Person)
    ensures PersonText(r, f) == (if (f.Username? || f.IntroTagline?) && v == [] then None else Some(v))
    ensures forall g :: g != f ==> PersonText(r, g) == PersonText(p, g)
    ensures r.id == p.id && r.socials == p.socials
    ensures r.currentProjects == p.currentProjects && r.pastProjects == p.pastProjects
  {
    match f
    case Name => p.(name := v)
    case Photo => p.(photo := v)
    case Username => p.(username := if v == [] then None else Some(v))
    case IntroTagline => p.(introTagline := if v == [] then None else Some(v))
    case Bio => p.(bio := v)
  }

  datatype ProjectField = Title | Started | Ended | Description

  function ProjectText(p: Project, f: ProjectField): Option<string> {
    match f
    case Title => Some(p.name)
    case Started => Some(p.dateStarted)
    case Ended => p.dateEnded
    case Description => Some(p.description)
  }

  function SetProjectField(p: Project, f: ProjectField, v: string): (r: Project)
    ensures ProjectText(r, f) == Some(v)
    ensures forall g :: g != f ==> ProjectText(r, g) == ProjectText(p, g)
    ensures r.id == p.id && r.links == p.links
  {
    match f
    case Title => p.(name := v)
    case Started => p.(dateStarted := v)
    case Ended => p.(dateEnded := Some(v))
    case Description => p.(description := v)
  }

  /* ── Links of a project ── */

  datatype LinkField = LinkLabel | LinkUrl

  /** Editing one field of link `i` changes only that field of that link. */
  function SetLinkField(p: Project, i: nat, f: LinkField, v: string): (r: Project)
    requires i < |p.links|
    ensures |r.links| == |p.links|
    ensures forall j :: 0 <= j < |p.links| && j != i ==> r.links[j] == p.links[j]
    ensures f.LinkLabel? ==> r.links[i] == Link(v, p.links[i].url)
    ensures f.LinkUrl? ==> r.links[i] == Link(p.links[i].caption, v)
    ensures r.(links := p.links) == p
  {
    var l := p.links[i];
    p.(links := p.links[i := if f.LinkLabel? then l.(caption := v) else l.(url := v)])
  }

  /** Removing link `i` deletes exactly that link and keeps the others in order. */
  function RemoveLink(p: Project, i: nat): (r: Project)
    ensures i < |p.links| ==> r.links == p.links[..i] + p.links[i + 1..]
    ensures i >= |p.links| ==> r.links == p.links
    ensures r.(links := p.links) == p
  {
    RemoveIndexSlices(p.links, i);
    p.(links := RemoveIndex(p.links, i))
  }

  function AddLink(p: Project): (r: Project)
    ensures r.links == p.links + [Link([], [])]
    ensures r.(links := p.links) == p
  {
    p.(links := p.links + [Link([], [])])
  }

  /* ── Socials of a person ── */

  datatype SocialField = SocialLabel | SocialUrl | SocialIcon

  /** Editing one field of social `i` changes only that field of that social. */
  function SetSocialField(p: Person, i: nat, f: SocialField, v: string): (r: Person)
    requires i < |p.socials|
    ensures |r.socials| == |p.socials|
    ensures forall j :: 0 <= j < |p.socials| && j != i ==> r.socials[j] == p.socials[j]
    ensures var s := p.socials[i];
      r.socials[i] == match f
        case SocialLabel => Social(v, s.url, s.icon)
        case SocialUrl => Social(s.caption, v, s.icon)
        case SocialIcon => Social(s.caption, s.url, v)
    ensures r.(socials := p.socials) == p
  {
    var s := p.socials[i];
    var s' := match f
      case SocialLabel => s.(caption := v)
      case SocialUrl => s.(url := v)
      case SocialIcon => s.(icon := v);
    p.(socials := p.socials[i := s'])
  }

  function RemoveSocial(p: Person, i: nat): (r: Person)
    ensures i < |p.socials| ==> r.socials == p.socials[..i] + p.socials[i + 1..]
    ensures i >= |p.socials| ==> r.socials == p.socials
    ensures r.(socials := p.socials) == p
  {
    RemoveIndexSlices(p.socials, i);
    p.(socials := RemoveIndex(p.socials, i))
  }

  function AddSocial(p: Person): (r: Person)
    ensures r.socials == p.socials + [Social([], [], [])]
    ensures r.(socials := p.socials) == p
  {
    p.(socials := p.socials + [Social([], [], [])])
  }

  /* ── Current and past projects of a person ── */

  function Projects(p: Person, current: bool): seq<Project> {
    if current then p.currentProjects else p.pastProjects
  }

  function WithProjects(p: Person, current: bool, ps: seq<Project>): (r: Person)
    ensures Projects(r, current) == ps && Projects(r, !current) == Projects(p, !current)
    ensures r.(currentProjects := p.currentProjects, pastProjects := p.pastProjects) == p
  {
    if current then p.(currentProjects := ps) else p.(pastProjects := ps)
  }

  /** The project editor's `onChange` for project `i`: replaces that project only. */
  function SetProjectAt(p: Person, current: bool, i: nat, updated: Project): (r: Person)
    requires i < |Projects(p, current)|
    ensures |Projects(r, current)| == |Projects(p, current)|
    ensures Projects(r, current)[i] == updated
    ensures forall j :: 0 <= j < |Projects(p, current)| && j != i ==> Projects(r, current)[j] == Projects(p, current)[j]
    ensures Projects(r, !current) == Projects(p, !current)
    ensures r.(currentProjects := p.currentProjects, pastProjects := p.pastProjects) == p
  {
    WithProjects(p, current, Projects(p, current)[i := updated])
  }

  function RemoveProjectAt(p: Person, current: bool, i: nat): (r: Person)
    ensures i < |Projects(p, current)| ==>
      Projects(r, current) == Projects(p, current)[..i] + Projects(p, current)[i + 1..]
    ensures i >= |Projects(p, current)| ==> Projects(r, current) == Projects(p, current)
    ensures Projects(r, !current) == Projects(p, !current)
    ensures r.(currentProjects := p.currentProjects, pastProjects := p.pastProjects) == p
  {
    RemoveIndexSlices(Projects(p, current), i);
    WithProjects(p, current, RemoveIndex(Projects(p, current), i))
  }

  /** "Add current project" / "Add past project": appends a blank project of that kind. */
  function AddProject(p: Person, current: bool, id: string): (r: Person)
    ensures Projects(r, current) == Projects(p, current) + [BlankProject(current, id)]
    ensures Projects(r, !current) == Projects(p, !current)
    ensures r.(currentProjects := p.currentProjects, pastProjects := p.pastProjects) == p
  {
    WithProjects(p, current, Projects(p, current) + [BlankProject(current, id)])
  }

  /* ── The login-time merge with the seed records ── */

  /** `seeds.find((s) => s.id === id)`. */
  function FindById(seeds: seq<Person>, id: string): Option<Person> {
    if seeds == [] then None
    else if seeds[0].id == id then Some(seeds[0])
    else FindById(seeds[1..], id)
  }

  /** `find` returns the first record with the id, and nothing when there is none. */
  lemma {:induction false} FindByIdSpec(seeds: seq<Person>, id: string)
    ensures FindById(seeds, id).None? <==> forall s :: s in seeds ==> s.id != id
    ensures FindById(seeds, id).Some? ==>
      exists k :: 0 <= k < |seeds| && seeds[k] == FindById(seeds, id).value && seeds[k].id == id
        && forall j :: 0 <= j < k ==> seeds[j].id != id
  {
    if seeds != [] {
      FindByIdSpec(seeds[1..], id);
      assert forall s :: s in seeds <==> s == seeds[0] || s in seeds[1..];
      if seeds[0].id != id && FindById(seeds, id).Some? {
        var k :| 0 <= k < |seeds[1..]| && seeds[1..][k] == FindById(seeds, id).value && seeds[1..][k].id == id
          && forall j :: 0 <= j < k ==> seeds[1..][j].id != id;
        assert seeds[k + 1] == seeds[1..][k];
        forall j | 0 <= j < k + 1 ensures seeds[j].id != id {
          if j > 0 { assert seeds[j] == seeds[1..][j - 1]; }
        }
      }
    }
  }

  /** One loaded person with `username` and `introTagline` filled from the seed of the same id when missing. */
  function MergeOne(p: Person, seeds: seq<Person>): Person {
    var seed := FindById(seeds, p.id);
    p.(username := p.username.OrElse(if seed.Some? then seed.value.username else None),
       introTagline := p.introTagline.OrElse(if seed.Some? then seed.value.introTagline else None))
  }

  /** The JSON the admin GET returned: an array of people, or anything else. */
  datatype Loaded = NotAnArray | PeopleArray(people: seq<Person>)

  /** `(Array.isArray(data) ? data : []).map(...)`. */
  function Merge(data: Loaded, seeds: seq<Person>): seq<Person> {
    match data
    case NotAnArray => []
    case PeopleArray(ps) => seq(|ps|, i requires 0 <= i < |ps| => MergeOne(ps[i], seeds))
  }

  /**
   * The merge keeps every loaded person in order and changes nothing but the
   * two optional fields; a present value is kept, a missing one is filled from
   * the first seed with the same id (`FindByIdSpec`), and stays missing when
   * no seed has that id.
   */
  lemma MergeSpec(data: Loaded, seeds: seq<Person>)
    ensures data.NotAnArray? ==> Merge(data, seeds) == []
    ensures data.PeopleArray? ==> |Merge(data, seeds)| == |data.people|
    ensures data.PeopleArray? ==> forall i :: 0 <= i < |data.people| ==>
      var p, r := data.people[i], Merge(data, seeds)[i];
      && r.(username := p.username, introTagline := p.introTagline) == p
      && (p.username.Some? ==> r.username == p.username)
      && (p.introTagline.Some? ==> r.introTagline == p.introTagline)
      && (r.username != p.username ==> exists s :: s in seeds && s.id == p.id && s.username == r.username)
      && (r.introTagline != p.introTagline ==>
            exists s :: s in seeds && s.id == p.id && s.introTagline == r.introTagline)
      && ((forall s :: s in seeds ==> s.id != p.id) ==> r == p)
    ensures data.PeopleArray? ==> forall i :: 0 <= i < |data.people| ==>
      var p, r, seed := data.people[i], Merge(data, seeds)[i], FindById(seeds, data.people[i].id);
      && (p.username.None? && seed.Some? ==> r.username == seed.value.username)
      && (p.username.None? && seed.None? ==> r.username.None?)
      && (p.introTagline.None? && seed.Some? ==> r.introTagline == seed.value.introTagline)
      && (p.introTagline.None? && seed.None? ==> r.introTagline.None?)
  {
    if data.PeopleArray? {
      forall i | 0 <= i < |data.people| {
        FindByIdSpec(seeds, data.people[i].id);
      }
    }
  }
}
