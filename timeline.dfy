/** The call timeline of src/components/Timeline.tsx: the icon and the navigation link chosen by
    an event's type, and the per-event render conditions. */
module Timeline {
  import opened Wrappers
  import opened Types

  datatype Icon = PhoneIcon | MailIcon | FileCheckIcon | BuildingIcon | ClockIcon

  /** `getEventIcon`: four types have their own icon; `system` and a missing type get the
      clock. */
  function EventIcon(kind: Option<EventType>): (r: Icon)
    ensures r == ClockIcon <==> kind.None? || kind == Some(SystemEvent)
  {
    match kind
    case Some(CallEvent) => PhoneIcon
    case Some(EmailEvent) => MailIcon
    case Some(DocumentEvent) => FileCheckIcon
    case Some(ProviderEvent) => BuildingIcon
    case _ => ClockIcon
  }

  datatype Link = Link(text: string, section: string)

  /** `getEventLink`: a link into the matching section for calls, e-mails, documents and
      providers, and `null` otherwise. */
  function EventLink(kind: Option<EventType>): (r: Option<Link>)
    ensures r.None? <==> kind.None? || kind == Some(SystemEvent)
    ensures kind == Some(CallEvent) ==> r == Some(Link("View Call Details", "calls"))
    ensures kind == Some(EmailEvent) ==> r == Some(Link("View Email", "emails"))
    ensures kind == Some(DocumentEvent) ==> r == Some(Link("View Document", "documents"))
    ensures kind == Some(ProviderEvent) ==> r == Some(Link("View Provider Details", "providers"))
  {
    match kind
    case Some(CallEvent) => Some(Link("View Call Details", "calls"))
    case Some(EmailEvent) => Some(Link("View Email", "emails"))
    case Some(DocumentEvent) => Some(Link("View Document", "documents"))
    case Some(ProviderEvent) => Some(Link("View Provider Details", "providers"))
    case _ => None
  }

  /** `event.type && getEventLink(event.type, event)`: the link is rendered when the type is
      defined and has a link. */
  predicate ShowsLink(event: TimelineEvent) {
    event.kind.Some? && EventLink(event.kind).Some?
  }

  /** An event gets a link exactly when it gets an icon other than the clock; the link's
      section tells the types apart. */
  lemma LinkIffOwnIcon(event: TimelineEvent, other: TimelineEvent)
    ensures ShowsLink(event) <==> EventIcon(event.kind) != ClockIcon
    ensures ShowsLink(event) && ShowsLink(other) ==>
              (EventLink(event.kind).value.section == EventLink(other.kind).value.section <==>
               event.kind == other.kind)
  {
  }

  /** The `In Progress` tag: shown for the current event only. */
  predicate ShowsInProgress(event: TimelineEvent) {
    event.status == EventCurrent
  }

  datatype Tone = GreenTone | BlueTone | GrayTone

  /** The colour of the event's line and dot: green when completed, blue when current, gray
      when upcoming. */
  function EventTone(status: EventStatus): (r: Tone)
    ensures r == BlueTone <==> status == EventCurrent
    ensures r == GreenTone <==> status == EventCompleted
  {
    if status == EventCompleted then GreenTone
    else if status == EventCurrent then BlueTone
    else GrayTone
  }
}
