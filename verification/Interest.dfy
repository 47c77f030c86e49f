/** Channel masks and the three-valued index that a poller keeps for each channel. */
module Interest {
  datatype Event = In | Pri | Out | Err | Hup | Nval | RdHup

  const NONE_EVENT: set<Event> := {}
  const READ_EVENT: set<Event> := {In, Pri}
  const WRITE_EVENT: set<Event> := {Out}

  /** kNew, kAdded, kDeleted */
  datatype Index = New | Added | Deleted

  /** The index after updateChannel on a channel whose mask is `events`. */
  function Updated(index: Index, events: set<Event>): Index {
    if index.Added? && events == NONE_EVENT then Deleted else Added
  }

  /** A change of mask, as every enable and disable operation makes it. */
  datatype Change = EnableReading | DisableReading | EnableWriting | DisableWriting | DisableAll

  function Changed(events: set<Event>, change: Change): set<Event> {
    match change
    case EnableReading => events + READ_EVENT
    case DisableReading => events - READ_EVENT
    case EnableWriting => events + WRITE_EVENT
    case DisableWriting => events - WRITE_EVENT
    case DisableAll => NONE_EVENT
  }

  datatype Mark = Mark(index: Index, events: set<Event>)

  const Fresh := Mark(New, NONE_EVENT)

  function Apply(m: Mark, change: Change): Mark {
    var events := Changed(m.events, change);
    Mark(Updated(m.index, events), events)
  }

  function ApplyAll(m: Mark, changes: seq<Change>): Mark {
    if changes == [] then m else Apply(ApplyAll(m, changes[..|changes| - 1]), changes[|changes| - 1])
  }

  predicate Coherent(m: Mark) {
    !m.index.Added? ==> m.events == NONE_EVENT
  }

  /** In every run of mask changes: a channel that wants events is in epoll, one that is not is silent. */
  lemma {:induction false} WantedMeansAdded(changes: seq<Change>)
    ensures Coherent(ApplyAll(Fresh, changes))
    ensures changes != [] ==> !ApplyAll(Fresh, changes).index.New?
  {
    if changes != [] {
      WantedMeansAdded(changes[..|changes| - 1]);
    }
  }

  /** disableAll takes a channel out of epoll exactly when it was in: on a channel that is out already, or has
      never been in, it puts it in, with an empty mask that still reports ERR and HUP. */
  lemma DisableAllLeavesEpollIffAdded(changes: seq<Change>)
    ensures !ApplyAll(Fresh, changes + [DisableAll]).index.Added? <==> ApplyAll(Fresh, changes).index.Added?
    ensures ApplyAll(Fresh, changes).events != NONE_EVENT
        ==> ApplyAll(Fresh, changes + [DisableAll]) == Mark(Deleted, NONE_EVENT)
  {
    assert (changes + [DisableAll])[..|changes|] == changes;
    WantedMeansAdded(changes);
  }
}
