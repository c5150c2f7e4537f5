/** The debounced auto-save of one project card, with the timer reduced to events: an edit of the
    title or description draft clears the pending timeout and arms a new one; when the timeout fires it
    calls `onAutoSave` with the drafts, provided they differ from the card's props. */
module AutoSave {
  import opened Wrappers

  type Id = string

  /** The drafts captured by the closure of an armed timeout. */
  datatype Snapshot = Snapshot(title: string, description: string)

  /** One call `onAutoSave(id, title, description)`. */
  datatype Save = Save(id: Id, title: string, description: string)

  /** The props `id`, `title`, `description`, the drafts `newTitle`, `newDesc`, the armed timeout, and
      whether the card is still mounted. */
  datatype CardState = CardState(
    id: Id, title: string, description: string,
    newTitle: string, newDesc: string,
    pending: Option<Snapshot>,
    mounted: bool)

  /** At most one timeout is armed (there is one `pending` slot), what it captured is the latest drafts,
      and an unmounted card has none armed. */
  predicate Valid(s: CardState)
  {
    (s.pending.Some? ==> s.pending.value == Snapshot(s.newTitle, s.newDesc)) &&
    (!s.mounted ==> s.pending.None?)
  }

  /** The drafts differ from the props. */
  predicate Dirty(s: CardState)
  {
    s.newTitle != s.title || s.newDesc != s.description
  }

  /** The card as first rendered: the drafts are the props and the mount effect has armed a timeout. */
  function Mount(id: Id, title: string, description: string): (s: CardState)
    ensures Valid(s) && !Dirty(s) && s.pending.Some? && s.mounted
    ensures AfterTimeout(s).1 == None
  {
    CardState(id, title, description, title, description, Some(Snapshot(title, description)), true)
  }

  /** A change of the title textarea. Setting the draft to its current value re-runs no effect, so the
      armed timeout stays; any other value clears it and arms a new one over the new drafts. An unmounted
      card gets no `onChange`, so nothing changes. */
  function AfterTitleChange(s: CardState, value: string): (r: CardState)
    ensures Valid(s) ==> Valid(r)
    ensures s.mounted ==> r.newTitle == value
    ensures r.newDesc == s.newDesc
    ensures (r.id, r.title, r.description, r.mounted) == (s.id, s.title, s.description, s.mounted)
    ensures s.mounted && value != s.newTitle ==> r.pending.Some?
    ensures value == s.newTitle || !s.mounted ==> r == s
  {
    if !s.mounted || value == s.newTitle then s
    else s.(newTitle := value, pending := Some(Snapshot(value, s.newDesc)))
  }

  /** A change of the description textarea; the mirror image of `AfterTitleChange`. */
  function AfterDescChange(s: CardState, value: string): (r: CardState)
    ensures Valid(s) ==> Valid(r)
    ensures s.mounted ==> r.newDesc == value
    ensures r.newTitle == s.newTitle
    ensures (r.id, r.title, r.description, r.mounted) == (s.id, s.title, s.description, s.mounted)
    ensures s.mounted && value != s.newDesc ==> r.pending.Some?
    ensures value == s.newDesc || !s.mounted ==> r == s
  {
    if !s.mounted || value == s.newDesc then s
    else s.(newDesc := value, pending := Some(Snapshot(s.newTitle, value)))
  }

  /** The armed timeout fires: it is used up, and it calls `onAutoSave` with what it captured when that
      differs from the props. With no timeout armed, or on an unmounted card, nothing happens. */
  function AfterTimeout(s: CardState): (out: (CardState, Option<Save>))
    ensures out.0 == (if s.mounted then s.(pending := None) else s)
    ensures Valid(s) ==> (out.1.Some? <==> s.pending.Some? && Dirty(s))
    ensures Valid(s) && out.1.Some? ==> out.1.value == Save(s.id, s.newTitle, s.newDesc)
  {
    if !s.mounted then (s, None)
    else match s.pending
    case None => (s, None)
    case Some(captured) =>
      var save := if captured.title != s.title || captured.description != s.description
                  then Some(Save(s.id, captured.title, captured.description))
                  else None;
      (s.(pending := None), save)
  }

  /** Unmounting runs the effect cleanup, which clears the armed timeout, and ends the card's life. */
  function AfterUnmount(s: CardState): (r: CardState)
    ensures Valid(r) && r.pending.None? && !r.mounted
    ensures (r.id, r.title, r.description, r.newTitle, r.newDesc) == (s.id, s.title, s.description, s.newTitle, s.newDesc)
  {
    s.(pending := None, mounted := false)
  }

  datatype Event = TitleChange(value: string) | DescChange(value: string) | Timeout | Unmount

  predicate IsEdit(e: Event)
  {
    e.TitleChange? || e.DescChange?
  }

  function Step(s: CardState, e: Event): (CardState, Option<Save>)
  {
    match e
    case TitleChange(v) => (AfterTitleChange(s, v), None)
    case DescChange(v) => (AfterDescChange(s, v), None)
    case Timeout => AfterTimeout(s)
    case Unmount => (AfterUnmount(s), None)
  }

  function SaveList(o: Option<Save>): seq<Save>
  {
    if o.Some? then [o.value] else []
  }

  /** The state after the events, and the `onAutoSave` calls they caused, in order. */
  function Run(s: CardState, events: seq<Event>): (CardState, seq<Save>)
    decreases |events|
  {
    if events == [] then (s, [])
    else
      var (t, o) := Step(s, events[0]);
      var (u, saves) := Run(t, events[1..]);
      (u, SaveList(o) + saves)
  }

  /** One event followed by others. */
  lemma RunCons(s: CardState, e: Event, rest: seq<Event>)
    ensures Run(s, [e] + rest) == (Run(Step(s, e).0, rest).0, SaveList(Step(s, e).1) + Run(Step(s, e).0, rest).1)
  {
    assert ([e] + rest)[0] == e && ([e] + rest)[1..] == rest;
  }

  /** A single event. */
  lemma RunOne(s: CardState, e: Event)
    ensures Run(s, [e]) == (Step(s, e).0, SaveList(Step(s, e).1))
  {
    RunCons(s, e, []);
    assert [e] + [] == [e];
    assert SaveList(Step(s, e).1) + [] == SaveList(Step(s, e).1);
  }

  /** Running two event sequences one after the other is running their concatenation. */
  lemma {:induction false} RunConcat(s: CardState, a: seq<Event>, b: seq<Event>)
    ensures Run(s, a + b) == (Run(Run(s, a).0, b).0, Run(s, a).1 + Run(Run(s, a).0, b).1)
    decreases |a|
  {
    if a != [] {
      assert (a + b)[0] == a[0] && (a + b)[1..] == a[1..] + b;
      var (t, o) := Step(s, a[0]);
      RunConcat(t, a[1..], b);
      var mid := Run(t, a[1..]);
      var last := Run(mid.0, b);
      assert Run(s, a) == (mid.0, SaveList(o) + mid.1);
      assert Run(s, a + b) == (last.0, SaveList(o) + (mid.1 + last.1));
      assert SaveList(o) + (mid.1 + last.1) == (SaveList(o) + mid.1) + last.1;
    } else {
      assert a + b == b;
      assert [] + Run(s, b).1 == Run(s, b).1;
    }
  }

  /** Every event keeps the invariant, and the props never change. */
  lemma {:induction false} RunKeepsValid(s: CardState, events: seq<Event>)
    requires Valid(s)
    ensures Valid(Run(s, events).0)
    ensures (Run(s, events).0.id, Run(s, events).0.title, Run(s, events).0.description) == (s.id, s.title, s.description)
    decreases |events|
  {
    if events != [] {
      RunKeepsValid(Step(s, events[0]).0, events[1..]);
    }
  }

  /** Every `onAutoSave` call carries drafts that differ from the props and the card's own id. */
  lemma {:induction false} RunSavesOnlyDirty(s: CardState, events: seq<Event>)
    requires Valid(s)
    ensures forall k :: 0 <= k < |Run(s, events).1| ==>
      Run(s, events).1[k].id == s.id &&
      (Run(s, events).1[k].title != s.title || Run(s, events).1[k].description != s.description)
    decreases |events|
  {
    if events != [] {
      var t := Step(s, events[0]).0;
      RunSavesOnlyDirty(t, events[1..]);
      assert (t.id, t.title, t.description) == (s.id, s.title, s.description);
    }
  }

  /** The title the drafts hold after `events`, starting from `current`: the last one typed. */
  function LatestTitle(current: string, events: seq<Event>): string
    decreases |events|
  {
    if events == [] then current
    else LatestTitle(if events[0].TitleChange? then events[0].value else current, events[1..])
  }

  /** The description the drafts hold after `events`, starting from `current`: the last one typed. */
  function LatestDesc(current: string, events: seq<Event>): string
    decreases |events|
  {
    if events == [] then current
    else LatestDesc(if events[0].DescChange? then events[0].value else current, events[1..])
  }

  /** A burst of edits calls nothing, leaves the latest title and description in the drafts, and either
      leaves a timeout armed or changes nothing at all. */
  lemma {:induction false} EditsOnly(s: CardState, events: seq<Event>)
    requires Valid(s)
    requires forall k :: 0 <= k < |events| ==> IsEdit(events[k])
    ensures Run(s, events).1 == []
    ensures s.mounted ==> Run(s, events).0.newTitle == LatestTitle(s.newTitle, events)
    ensures s.mounted ==> Run(s, events).0.newDesc == LatestDesc(s.newDesc, events)
    ensures Run(s, events).0.pending.Some? || Run(s, events).0 == s
    ensures Run(s, events).0.mounted == s.mounted
    decreases |events|
  {
    if events != [] {
      var t := Step(s, events[0]).0;
      EditsOnly(t, events[1..]);
      var u := Run(t, events[1..]).0;
      assert u.pending.None? ==> u == t;
    }
  }

  /** Debounce: after a burst of edits, the timeout makes at most one `onAutoSave` call, and it carries
      the latest title and the latest description together; superseded drafts are never sent. */
  lemma EditsThenTimeout(s: CardState, events: seq<Event>)
    requires Valid(s)
    requires forall k :: 0 <= k < |events| ==> IsEdit(events[k])
    ensures var t := Run(s, events).0;
            Run(s, events + [Timeout]).1 ==
            (if t.pending.Some? && Dirty(t) then [Save(s.id, LatestTitle(s.newTitle, events), LatestDesc(s.newDesc, events))] else [])
  {
    EditsOnly(s, events);
    RunKeepsValid(s, events);
    RunConcat(s, events, [Timeout]);
    var t := Run(s, events).0;
    assert [Timeout][1..] == [];
    assert Run(t, [Timeout]) == (AfterTimeout(t).0, SaveList(AfterTimeout(t).1) + []);
  }

  /** Two quick title edits after mounting and then the timeout: one call, with the second title. */
  lemma TwoEditsOneSave(id: Id, title: string, description: string, v1: string, v2: string)
    ensures Run(Mount(id, title, description), [TitleChange(v1), TitleChange(v2), Timeout]).1 ==
            (if v2 != title then [Save(id, v2, description)] else [])
  {
    var s := Mount(id, title, description);
    var events := [TitleChange(v1), TitleChange(v2)];
    assert events + [Timeout] == [TitleChange(v1), TitleChange(v2), Timeout];
    EditsThenTimeout(s, events);
    EditsOnly(s, events);
    assert events[1..] == [TitleChange(v2)] && events[1..][1..] == [];
    assert LatestTitle(v2, events[1..][1..]) == v2;
    assert LatestTitle(v1, events[1..]) == v2;
    assert LatestTitle(title, events) == v2;
    assert LatestDesc(description, events[1..][1..]) == description;
    assert LatestDesc(description, events[1..]) == description;
    assert LatestDesc(description, events) == description;
    RunKeepsValid(s, events);
    var t := Run(s, events).0;
    assert t.pending.Some?;
    assert t.title == title && t.description == description;
    assert Dirty(t) <==> v2 != title;
  }

  /** The dirty check compares with the props, not with the last value saved: after a title has been
      saved, typing the original title back arms a timeout whose firing calls nothing. */
  lemma RevertAfterSaveNotSaved(id: Id, title: string, description: string, edited: string)
    requires edited != title
    ensures Run(Mount(id, title, description), [TitleChange(edited), Timeout, TitleChange(title), Timeout]).1 ==
            [Save(id, edited, description)]
  {
    var s := Mount(id, title, description);
    var first := [TitleChange(edited), Timeout];
    var second := [TitleChange(title), Timeout];
    assert first + second == [TitleChange(edited), Timeout, TitleChange(title), Timeout];
    RunConcat(s, first, second);
    var a := AfterTitleChange(s, edited);
    RunCons(s, TitleChange(edited), [Timeout]);
    RunOne(a, Timeout);
    assert [TitleChange(edited)] + [Timeout] == first;
    var t := a.(pending := None);
    assert SaveList(None) + [Save(id, edited, description)] == [Save(id, edited, description)];
    assert Run(s, first) == (t, [Save(id, edited, description)]);
    var b := AfterTitleChange(t, title);
    RunCons(t, TitleChange(title), [Timeout]);
    RunOne(b, Timeout);
    assert [TitleChange(title)] + [Timeout] == second;
    assert Run(t, second).1 == [];
  }

  /** Once unmounted, a card stays as it is and calls nothing, whatever events follow. */
  lemma {:induction false} UnmountedStays(s: CardState, events: seq<Event>)
    requires Valid(s) && !s.mounted
    ensures Run(s, events) == (s, [])
    decreases |events|
  {
    if events != [] {
      assert Step(s, events[0]) == (s, None);
      UnmountedStays(s, events[1..]);
      assert SaveList(None) + [] == [];
    }
  }

  /** No `onAutoSave` call ever happens after unmounting. */
  lemma NothingAfterUnmount(s: CardState, events: seq<Event>)
    ensures Run(AfterUnmount(s), events).1 == []
  {
    UnmountedStays(AfterUnmount(s), events);
  }

  /** A `ProjectCard` component: its props, its two drafts, its armed timeout and whether it is mounted.
      Each method is the transition of its event. */
  class ProjectCard {
    const id: Id
    const title: string
    const description: string
    var newTitle: string
    var newDesc: string
    var pending: Option<Snapshot>
    var mounted: bool

    function State(): CardState
      reads this
    {
      CardState(id, title, description, newTitle, newDesc, pending, mounted)
    }

    constructor (id: Id, title: string, description: string)
      ensures State() == Mount(id, title, description)
    {
      this.id := id;
      this.title := title;
      this.description := description;
      newTitle := title;
      newDesc := description;
      pending := Some(Snapshot(title, description));
      mounted := true;
    }

    /** `onChange` of the title textarea. */
    method EditTitle(value: string)
      modifies this
      ensures State() == AfterTitleChange(old(State()), value)
    {
      if mounted && value != newTitle {
        newTitle := value;
        pending := Some(Snapshot(newTitle, newDesc));
      }
    }

    /** `onChange` of the description textarea. */
    method EditDesc(value: string)
      modifies this
      ensures State() == AfterDescChange(old(State()), value)
    {
      if mounted && value != newDesc {
        newDesc := value;
        pending := Some(Snapshot(newTitle, newDesc));
      }
    }

    /** The armed timeout fires; `save` is the `onAutoSave` call it makes, if any. */
    method Fire() returns (save: Option<Save>)
      modifies this
      ensures (State(), save) == AfterTimeout(old(State()))
      ensures Valid(old(State())) && save.Some? ==> save.value == Save(id, newTitle, newDesc)
    {
      save := None;
      if mounted && pending.Some? {
        var captured := pending.value;
        pending := None;
        if captured.title != title || captured.description != description {
          save := Some(Save(id, captured.title, captured.description));
        }
      }
    }

    /** The card is unmounted: the effect cleanup clears the armed timeout, and the card is gone. */
    method Dispose()
      modifies this
      ensures State() == AfterUnmount(old(State()))
    {
      pending := None;
      mounted := false;
    }
  }
}
