/**
 The story the published events of one entry tell, written out: queued, perhaps queued again by a shutdown, and then
 perhaps cancelled; or queued, running, park reservations made and withdrawn in turn, and one final state.
 */
module EventLives {
  import opened QueueStore
  import opened QueueWorkers
  import opened QueueMachine
  import opened QueueInvariant
  import opened QueueTheorems

  /** The events of entry `n`, in the order they were published. */
  function EventsOf(events: Events, n: nat): seq<Event> {
    match events
    case Opening(_) => []
    case Then(before, event) => EventsOf(before, n) + if event.entry == n then [event] else []
  }

  function Opened(events: Events): Store {
    match events
    case Opening(store) => store
    case Then(before, _) => Opened(before)
  }

  /** Queued here, unless an earlier process had it queued, and once more when a shutdown put it back. */
  function Beginning(n: nat, carried: bool, again: bool): seq<Event> {
    (if carried then [] else [EntryChanged(n, Queued)]) + (if again then [EntryChanged(n, Queued)] else [])
  }

  /** `count` park events in turn, from true. */
  function Parks(n: nat, count: nat): seq<Event> {
    if count == 0 then [] else Parks(n, count - 1) + [ParkChanged(n, count % 2 == 1)]
  }

  function RunningPart(n: nat, carried: bool, count: nat): seq<Event> {
    Beginning(n, carried, false) + [EntryChanged(n, Running)] + Parks(n, count)
  }

  /** The whole stories there are, and those still being told. */
  datatype Story =
    | NotBegun
    | StillWaiting(again: bool)
    | CancelledUnrun(again: bool)
    | StillRunning(parks: nat)
    | Finished(parks: nat, state: QueueState)

  function Tale(story: Story, n: nat, carried: bool): seq<Event> {
    match story
    case NotBegun => []
    case StillWaiting(again) => Beginning(n, carried, again)
    case CancelledUnrun(again) => Beginning(n, carried, again) + [EntryChanged(n, Cancelled)]
    case StillRunning(parks) => RunningPart(n, carried, parks)
    case Finished(parks, state) => RunningPart(n, carried, parks) + [EntryChanged(n, state)]
  }

  predicate StoryFits(story: Story, phase: Phase) {
    match story
    case NotBegun => phase.Unseen?
    case StillWaiting(again) => phase == Waiting(again)
    case CancelledUnrun(_) => phase.Over?
    case StillRunning(parks) => phase == Active(parks % 2 == 1)
    case Finished(_, state) => phase.Over? && !state.Active()
  }

  predicate FinishedBefore(s: Store, n: nat) {
    n in s.entries && !s.entries[n].state.Queued?
  }

  /** An entry in no disorder has told one of these stories so far, to the last event. */
  lemma {:induction false} InOrderTellsAStory(events: Events, n: nat) returns (story: Story)
    requires PhaseOf(events, n) != OutOfOrder && !FinishedBefore(Opened(events), n)
    ensures StoryFits(story, PhaseOf(events, n))
    ensures EventsOf(events, n) == Tale(story, n, n in Opened(events).entries)
    ensures story.NotBegun? ==> n !in Opened(events).entries
  {
    var carried := n in Opened(events).entries;
    match events
    case Opening(_) => story := if n in Opened(events).entries then StillWaiting(false) else NotBegun;
    case Then(before, event) =>
      story := InOrderTellsAStory(before, n);
      if event.entry == n {
        TheTaleGoesOn(story, n, carried, event);
        story := Next(story, event);
      }
  }

  function Next(story: Story, event: Event): Story {
    match event
    case ParkChanged(_, _) => if story.StillRunning? then StillRunning(story.parks + 1) else story
    case EntryChanged(_, state) =>
      match story
      case NotBegun => StillWaiting(false)
      case StillWaiting(again) =>
        if state.Queued? then StillWaiting(true)
        else if state.Cancelled? then CancelledUnrun(again)
        else StillRunning(0)
      case StillRunning(parks) => Finished(parks, state)
      case _ => story
  }

  /** One more event where it is in order is the next story's last. */
  lemma TheTaleGoesOn(story: Story, n: nat, carried: bool, event: Event)
    requires event.entry == n && (story.NotBegun? ==> !carried)
    requires exists phase :: StoryFits(story, phase) && Told(phase, event) != OutOfOrder
    ensures forall phase | StoryFits(story, phase) && Told(phase, event) != OutOfOrder ::
              StoryFits(Next(story, event), Told(phase, event))
    ensures Tale(Next(story, event), n, carried) == Tale(story, n, carried) + [event]
  {
    match story
    case StillWaiting(again) =>
      if event.EntryChanged? && event.state.Running? {
        assert Parks(n, 0) == [];
      }
    case StillRunning(parks) =>
      if event.ParkChanged? {
        assert Parks(n, parks + 1) == Parks(n, parks) + [event];
        assert RunningPart(n, carried, parks + 1) == RunningPart(n, carried, parks) + [event];
      }
    case _ =>
  }

  /** Every entry's published events are exactly one of these stories, told so far, at every moment of every run. */
  lemma EveryEntryTellsAStory(w: World, n: nat) returns (story: Story)
    requires Reachable(w) && !w.stage.Down? && !FinishedBefore(Opened(w.sh.events), n)
    ensures EventsOf(w.sh.events, n) == Tale(story, n, n in Opened(w.sh.events).entries)
    ensures story.StillWaiting? && story.again ==> w.stage.Exited?
    ensures n in w.Store().entries && w.Store().entries[n].state.Queued? ==> story.StillWaiting?
    ensures n in w.Store().entries && w.Store().entries[n].state.Running? ==>
              story.StillRunning? && (w.sh.marks.parkPending <==> story.parks % 2 == 1)
    ensures story.Finished? || story.CancelledUnrun? ==> n in w.Store().entries && !w.Store().entries[n].state.Active()
  {
    ReachableIsSound(w);
    assert PhaseFits(PhaseOf(w.sh.events, n), w.stage, w.sh.marks, w.Store(), n);
    story := InOrderTellsAStory(w.sh.events, n);
  }
}
