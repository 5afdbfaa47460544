/**
 * The "ask AI" drawer of a portfolio window (src/components/AIChat.tsx): the
 * system prompt built from a person's record, the four preset questions, and
 * the per-drawer `loading` guard around the request to the ask route.
 */
module AIChat {
  import opened Wrappers
  import opened Types
  import opened Text
  import AskRoute

  function ProjectEntry(p: Project, tag: string): string {
    p.name + " (" + tag + "): " + p.description
  }

  function Entries(ps: seq<Project>, tag: string): seq<string> {
    seq(|ps|, i requires 0 <= i < |ps| => ProjectEntry(ps[i], tag))
  }

  /** The `projects` line: current projects, then past ones, joined by "; ". */
  function ProjectsLine(person: Person): string {
    JoinWith(Entries(person.currentProjects, "current") + Entries(person.pastProjects, "past"), "; ")
  }

  /** The `socials` line: "label: url" items joined by ", ". */
  function SocialsLine(person: Person): string {
    JoinWith(seq(|person.socials|, i requires 0 <= i < |person.socials| =>
      person.socials[i].caption + ": " + person.socials[i].url), ", ")
  }

  const IntroLead: string := "You are a hype-person AI for "

  const IntroTail: string :=
    "'s portfolio. Answer in 2-3 short spoken sentences max. Be warm and punchy. Only use facts below."

  /** The template after the name, up to and including "Contact:". */
  function AfterName(person: Person): string {
    IntroTail + "\nBio: " + person.bio + "\nProjects: " + ProjectsLine(person) + "\nContact:"
  }

  /** `buildSystemContext`: the prompt template, trimmed. */
  function BuildSystemContext(person: Person): string {
    Trim(IntroLead + person.name + AfterName(person) + " " + SocialsLine(person))
  }

  /** All current-project entries come before all past-project entries, with one "; " between the groups. */
  lemma ProjectsCurrentBeforePast(person: Person)
    requires person.currentProjects != [] && person.pastProjects != []
    ensures ProjectsLine(person) ==
      JoinWith(Entries(person.currentProjects, "current"), "; ") + "; "
      + JoinWith(Entries(person.pastProjects, "past"), "; ")
  {
    JoinAppend(Entries(person.currentProjects, "current"), Entries(person.pastProjects, "past"), "; ");
  }

  /**
   * The trimmed prompt keeps the whole template up to "Contact:"; only white
   * space at the end of the socials line can be cut.  So the name, bio and
   * projects line always survive the trim.
   */
  lemma ContextLayout(person: Person)
    ensures BuildSystemContext(person) ==
      IntroLead + person.name + AfterName(person) + TrimEnd(" " + SocialsLine(person))
    ensures Contains(BuildSystemContext(person), person.name)
  {
    var after := AfterName(person);
    var head := IntroLead + person.name + after;
    var tail := " " + SocialsLine(person);
    assert IntroLead + person.name + after + " " + SocialsLine(person) == head + tail;
    assert (head + tail)[0] == IntroLead[0] == 'Y';
    assert TrimStart(head + tail) == head + tail;
    assert after[|after| - 1] == ':';
    assert head[|head| - 1] == after[|after| - 1];
    TrimEndAfter(head, tail);
    assert head + TrimEnd(tail) == IntroLead + person.name + (after + TrimEnd(tail));
    ContainsInfix(IntroLead, person.name, after + TrimEnd(tail));
  }

  /** `person.name.split(" ")[0]`. */
  function FirstName(name: string): string {
    Split(name, ' ')[0]
  }

  /** The first name is the text before the first space (all of the name if it has none). */
  lemma {:induction false} FirstNameIsLeadingWord(name: string)
    ensures IsPrefix(FirstName(name), name)
    ensures ' ' !in FirstName(name)
    ensures |FirstName(name)| == |name| || name[|FirstName(name)|] == ' '
  {
    if name != [] && name[0] != ' ' {
      FirstNameIsLeadingWord(name[1..]);
      assert FirstName(name) == [name[0]] + FirstName(name[1..]);
    }
  }

  datatype Preset = Who | Experience | ContactInfo | Help

  function PresetId(b: Preset): string {
    match b
    case Who => "who"
    case Experience => "experience"
    case ContactInfo => "contact"
    case Help => "help"
  }

  function PresetPrompt(b: Preset, name: string): string {
    match b
    case Who => "Give a quick punchy intro of who " + name + " is."
    case Experience => "What has " + name + " built? Summarize their projects briefly."
    case ContactInfo => "How can someone reach " + name + "? Give their socials."
    case Help => "What can " + name + " help with? What value do they bring?"
  }

  /** Every preset question names the person. */
  lemma PromptNamesPerson(b: Preset, name: string)
    ensures Contains(PresetPrompt(b, name), name)
  {
    match b
    case Who => ContainsInfix("Give a quick punchy intro of who ", name, " is.");
    case Experience => ContainsInfix("What has ", name, " built? Summarize their projects briefly.");
    case ContactInfo => ContainsInfix("How can someone reach ", name, "? Give their socials.");
    case Help => ContainsInfix("What can ", name, " help with? What value do they bring?");
  }

  /** The body posted to the ask route. */
  datatype AskRequest = AskRequest(question: string, systemContext: string)

  /** How the awaited request ended: an error (thrown or reported), or an answer with or without audio. */
  datatype Reply = Failed | Answered(hasAudio: bool)

  class Drawer {
    const person: Person
    var open: bool
    var activeId: Option<string>
    var loading: bool
    var playing: bool
    /** Audio handed to the player and not yet started. */
    var audioQueued: bool

    constructor(person: Person)
      ensures this.person == person
      ensures !open && activeId == None && !loading && !playing && !audioQueued
    {
      this.person := person;
      open, activeId, loading, playing, audioQueued := false, None, false, false, false;
    }

    method Toggle()
      modifies this`open
      ensures open == !old(open)
    {
      open := !open;
    }

    /**
     * `handlePreset` up to the awaited fetch: a no-op while a request is in
     * flight; otherwise stops playback, marks the button and sends the request.
     */
    method Preset(b: Preset) returns (sent: Option<AskRequest>)
      modifies this`activeId, this`loading, this`playing, this`audioQueued
      ensures old(loading) ==>
        && sent == None && activeId == old(activeId) && loading
        && playing == old(playing) && audioQueued == old(audioQueued)
      ensures !old(loading) ==>
        && sent == Some(AskRequest(PresetPrompt(b, person.name), BuildSystemContext(person)))
        && activeId == Some(PresetId(b)) && loading && !playing && !audioQueued
    {
      if loading {
        return None;
      }
      audioQueued := false;
      playing := false;
      activeId := Some(PresetId(b));
      loading := true;
      sent := Some(AskRequest(PresetPrompt(b, person.name), BuildSystemContext(person)));
    }

    /** The rest of `handlePreset`: `loading` is cleared in `finally`, whatever the reply. */
    method Settle(reply: Reply)
      modifies this`loading, this`audioQueued
      ensures !loading
      ensures audioQueued == (reply.Answered? && reply.hasAudio)
    {
      audioQueued := reply.Answered? && reply.hasAudio;
      loading := false;
    }

    /** The audio element's `onplay`. */
    method AudioStarted()
      modifies this`playing, this`audioQueued
      ensures playing && !audioQueued
    {
      playing, audioQueued := true, false;
    }

    /** The audio element's `onended`, `onerror`, or a rejected `play()`. */
    method AudioStopped()
      modifies this`playing
      ensures !playing
    {
      playing := false;
    }
  }

  /** A second preset click while the first request is in flight sends nothing and keeps the first button active. */
  method DoubleClick(person: Person, first: Preset, second: Preset, reply: Reply)
    returns (a: Option<AskRequest>, b: Option<AskRequest>, c: Option<AskRequest>, active: Option<string>)
    ensures a.Some? && a.value.question == PresetPrompt(first, person.name)
    ensures b == None
    ensures active == Some(PresetId(first))
    ensures c.Some? && c.value.question == PresetPrompt(second, person.name)
  {
    var d := new Drawer(person);
    a := d.Preset(first);
    b := d.Preset(second);
    active := d.activeId;
    d.Settle(reply);
    c := d.Preset(second);
  }

  /**
   * How the drawer reads the ask route's JSON: a non-empty `error` is thrown
   * and swallowed; anything else is an answer, and the route's answers never
   * carry `audioBase64`.
   */
  function ReplyOf(r: AskRoute.Response): (reply: Reply)
    ensures reply.Failed? <==> r.payload.ErrorPayload? && r.payload.error != []
    ensures reply.Answered? ==> !reply.hasAudio
  {
    if r.payload.ErrorPayload? && r.payload.error != [] then Failed else Answered(false)
  }

  /** Every preset request passes the ask route's validation once the key is set, and is forwarded unchanged. */
  lemma PresetRequestAccepted(person: Person, b: Preset, key: string, up: AskRoute.Upstream)
    requires key != []
    ensures var q, c := PresetPrompt(b, person.name), BuildSystemContext(person);
      AskRoute.Post(Some(key), AskRoute.Parsed(AskRoute.Text(q), AskRoute.Text(c)), up).sent
        == Some(AskRoute.UpstreamRequest(c, q))
  {
    var q, c := PresetPrompt(b, person.name), BuildSystemContext(person);
    ContextLayout(person);
    assert c[0] == 'Y';
    assert !IsSpace(q[0]);
    AskRoute.UpstreamCalledIffValid(Some(key), AskRoute.Parsed(AskRoute.Text(q), AskRoute.Text(c)), up);
  }

  /**
   * A preset click answered by the ask route: the upstream model is asked
   * exactly when the key is set, and afterwards the drawer is ready for the
   * next click with no audio to play.
   */
  method AskThroughRoute(person: Person, b: Preset, key: Option<string>, up: AskRoute.Upstream)
    returns (asked: bool, loading: bool, audioQueued: bool, active: Option<string>)
    ensures asked <==> key.Some? && key.value != []
    ensures !loading && !audioQueued && active == Some(PresetId(b))
  {
    var d := new Drawer(person);
    var sent := d.Preset(b);
    var request := sent.value;
    var out := AskRoute.Post(key, AskRoute.Parsed(AskRoute.Text(request.question), AskRoute.Text(request.systemContext)), up);
    if key.Some? && key.value != [] {
      PresetRequestAccepted(person, b, key.value, up);
    }
    asked := out.sent.Some?;
    d.Settle(ReplyOf(out.response));
    loading, audioQueued, active := d.loading, d.audioQueued, d.activeId;
  }
}
