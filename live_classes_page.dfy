/**
 * The live-classes page (`LiveClassesPage.jsx`): loading the active classes,
 * the tutor's create form with its title check and generated Jitsi room
 * address, and opening a class in the classroom overlay.
 *
 * The component state is a `Page` object. Each API call and `alert` is
 * appended to an effect log and the outcome of each call is a parameter;
 * `Date.now()` is the parameter `now`.
 */
module LiveClassesPage {
  import opened Wrappers
  import opened Fetch
  import opened JsString

  /** One live class as the list endpoint serializes it. */
  datatype ClassView = ClassView(id: nat, title: string, topic: string, tutorName: string, isActive: bool)

  /** The body of the create request: exactly these three fields. */
  datatype CreatePayload = CreatePayload(title: string, topic: string, jitsiLink: string)

  datatype Effect = FetchLiveClasses | CreateLiveClass(payload: CreatePayload) | Alert(message: string)

  const JitsiHost := "https://meet.jit.si/"
  const RoomPrefix := "SkillForge_Live_"
  const TitleRequired := "Title required"
  const CreateFailed := "Error creating live class"

  /** The room address built from a millisecond timestamp written in decimal. */
  function JitsiLink(now: nat): (link: string)
    ensures StartsWith(link, JitsiHost + RoomPrefix)
    ensures IsDecimal(link[|JitsiHost + RoomPrefix|..])
    ensures DigitsValue(link[|JitsiHost + RoomPrefix|..]) == now
  {
    var link := JitsiHost + RoomPrefix + NatToString(now);
    assert link[..|JitsiHost + RoomPrefix|] == JitsiHost + RoomPrefix;
    assert link[|JitsiHost + RoomPrefix|..] == NatToString(now);
    NatToStringRoundTrip(now);
    link
  }

  /** Classes created at different instants get different rooms. */
  lemma JitsiLinkInjective(a: nat, b: nat)
    requires JitsiLink(a) == JitsiLink(b)
    ensures a == b
  {
    assert JitsiLink(a)[|JitsiHost + RoomPrefix|..] == JitsiLink(b)[|JitsiHost + RoomPrefix|..];
  }

  /** The prefix and a decimal suffix denoting `now` leave exactly one possible room address. */
  lemma JitsiLinkDetermined(now: nat, link: string)
    requires StartsWith(link, JitsiHost + RoomPrefix)
    requires IsDecimal(link[|JitsiHost + RoomPrefix|..])
    requires DigitsValue(link[|JitsiHost + RoomPrefix|..]) == now
    ensures link == JitsiLink(now)
  {
    var n := |JitsiHost + RoomPrefix|;
    DecimalRoundTrip(link[n..]);
    assert link == link[..n] + link[n..];
    assert JitsiLink(now) == JitsiHost + RoomPrefix + NatToString(now);
  }

  /** The payload `handleCreate` sends. */
  function PayloadFor(title: string, topic: string, now: nat): (p: CreatePayload)
    ensures p.title == title && p.topic == topic
    ensures StartsWith(p.jitsiLink, JitsiHost + RoomPrefix)
    ensures IsDecimal(p.jitsiLink[|JitsiHost + RoomPrefix|..])
    ensures DigitsValue(p.jitsiLink[|JitsiHost + RoomPrefix|..]) == now
  {
    CreatePayload(title, topic, JitsiLink(now))
  }

  /** The create form as shown: its two fields. */
  datatype CreateForm = CreateForm(title: string, topic: string)

  /**
   * What the page shows: the "Create New Live Class" button, the create form,
   * the loading note, one card with a "Join Class" button per class, and the
   * classroom overlay.
   */
  datatype PageView = PageView(createButton: bool, form: Option<CreateForm>, loadingNote: bool,
                               cards: seq<ClassView>, overlay: Option<ClassView>)

  /** The rendered page: the Create button is gated on `role === "tutor"`, the form on `showCreate`. */
  function Render(role: Option<string>, showCreate: bool, loading: bool, classes: seq<ClassView>,
                  title: string, topic: string, activeClass: Option<ClassView>): (v: PageView)
    ensures v.createButton <==> role == Some("tutor")
    ensures v.form.Some? <==> showCreate
    ensures v.form.Some? ==> v.form.value == CreateForm(title, topic)
    ensures v.loadingNote == loading && v.cards == classes && v.overlay == activeClass
  {
    PageView(role == Some("tutor"), if showCreate then Some(CreateForm(title, topic)) else None,
             loading, classes, activeClass)
  }

  class Page {
    /** The signed-in user's role from the store; the page does not change it. */
    const role: Option<string>
    var classes: seq<ClassView>
    var loading: bool
    var showCreate: bool
    var title: string
    var topic: string
    /** The class open in the classroom overlay. */
    var activeClass: Option<ClassView>
    /** The calls and alerts the page has issued, oldest first. */
    var effects: seq<Effect>

    /** The form can be open only on a tutor's page, since only a tutor is offered the button that opens it. */
    predicate Valid()
      reads this
    {
      role != Some("tutor") ==> !showCreate
    }

    /** What the page shows in its present state; a viewer who is not a tutor sees no create controls. */
    function View(): (v: PageView)
      reads this
      requires Valid()
      ensures role != Some("tutor") ==> !v.createButton && v.form.None?
    {
      Render(role, showCreate, loading, classes, title, topic, activeClass)
    }

    /** The state the component starts with, before its mount effect loads. */
    constructor (role: Option<string>)
      ensures Valid()
      ensures this.role == role
      ensures classes == [] && !loading && !showCreate && title == "" && topic == ""
      ensures activeClass == None && effects == []
    {
      this.role := role;
      classes, loading, showCreate, title, topic := [], false, false, "", "";
      activeClass, effects := None, [];
    }

    /** `load`: the `finally` clears `loading` whatever the outcome. */
    method Load(outcome: FetchOutcome<ClassView>)
      requires Valid()
      modifies this
      ensures Valid()
      ensures classes == AfterLoad(old(classes), outcome)
      ensures !loading
      ensures effects == old(effects) + [FetchLiveClasses]
      ensures showCreate == old(showCreate) && title == old(title) && topic == old(topic)
      ensures activeClass == old(activeClass)
    {
      loading := true;
      effects := effects + [FetchLiveClasses];
      match outcome {
        case FetchFailed =>
        case Fetched(data) =>
          classes := if data.Some? then data.value else [];
      }
      loading := false;
    }

    /** The "Create New Live Class" button's handler, which can run only while that button is shown. */
    method OpenCreate()
      requires Valid() && View().createButton
      modifies this
      ensures Valid()
      ensures showCreate
      ensures classes == old(classes) && loading == old(loading) && title == old(title) && topic == old(topic)
      ensures activeClass == old(activeClass) && effects == old(effects)
    {
      showCreate := true;
    }

    /** Cancel closes the form and keeps what was typed. */
    method Cancel()
      requires Valid()
      modifies this
      ensures Valid()
      ensures !showCreate
      ensures classes == old(classes) && loading == old(loading) && title == old(title) && topic == old(topic)
      ensures activeClass == old(activeClass) && effects == old(effects)
    {
      showCreate := false;
    }

    method EditTitle(t: string)
      requires Valid()
      modifies this
      ensures Valid()
      ensures title == t
      ensures classes == old(classes) && loading == old(loading) && showCreate == old(showCreate) && topic == old(topic)
      ensures activeClass == old(activeClass) && effects == old(effects)
    {
      title := t;
    }

    method EditTopic(t: string)
      requires Valid()
      modifies this
      ensures Valid()
      ensures topic == t
      ensures classes == old(classes) && loading == old(loading) && showCreate == old(showCreate) && title == old(title)
      ensures activeClass == old(activeClass) && effects == old(effects)
    {
      topic := t;
    }

    /**
     * `handleCreate`. An empty title only alerts. Otherwise one create call
     * carries the title, topic and room address; on success the form closes,
     * is cleared and the list reloads, and on failure an alert leaves the form
     * as it was.
     */
    method HandleCreate(now: nat, createOk: bool, reload: FetchOutcome<ClassView>)
      requires Valid()
      modifies this
      ensures Valid()
      ensures activeClass == old(activeClass)
      ensures old(title) == "" ==>
        effects == old(effects) + [Alert(TitleRequired)] &&
        classes == old(classes) && loading == old(loading) && showCreate == old(showCreate) &&
        title == old(title) && topic == old(topic)
      ensures old(title) != "" && createOk ==>
        effects == old(effects) + [CreateLiveClass(PayloadFor(old(title), old(topic), now)), FetchLiveClasses] &&
        !showCreate && title == "" && topic == "" && !loading &&
        classes == AfterLoad(old(classes), reload)
      ensures old(title) != "" && !createOk ==>
        effects == old(effects) + [CreateLiveClass(PayloadFor(old(title), old(topic), now)), Alert(CreateFailed)] &&
        classes == old(classes) && loading == old(loading) && showCreate == old(showCreate) &&
        title == old(title) && topic == old(topic)
    {
      if title == "" {
        effects := effects + [Alert(TitleRequired)];
        return;
      }
      var payload := PayloadFor(title, topic, now);
      effects := effects + [CreateLiveClass(payload)];
      if createOk {
        showCreate := false;
        title := "";
        topic := "";
        Load(reload);
      } else {
        effects := effects + [Alert(CreateFailed)];
      }
    }

    /** "Join Class" opens the classroom overlay for that class. */
    method JoinClass(c: ClassView)
      requires Valid()
      modifies this
      ensures Valid()
      ensures activeClass == Some(c)
      ensures classes == old(classes) && loading == old(loading) && showCreate == old(showCreate)
      ensures title == old(title) && topic == old(topic) && effects == old(effects)
    {
      activeClass := Some(c);
    }

    /** "Close" (or the classroom's own close callback) dismisses the overlay. */
    method CloseClass()
      requires Valid()
      modifies this
      ensures Valid()
      ensures activeClass == None
      ensures classes == old(classes) && loading == old(loading) && showCreate == old(showCreate)
      ensures title == old(title) && topic == old(topic) && effects == old(effects)
    {
      activeClass := None;
    }
  }
}
