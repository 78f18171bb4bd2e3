/** The ticket store: the list of tickets, newest first, kept by the
    application component. A submission is validated, classified and
    prepended with status Processing; a later step marks the ticket
    Responded. Ids and timestamps come from the caller. */
module Tickets {
  import opened Text
  import opened Registry
  import opened Classifier

  /** Escalated is declared for display only; no operation produces it. */
  datatype Status = Processing | Responded | Escalated

  /** A stored ticket: the submitted fields, its status and the fields of its
      classification (`confidence` in hundredths). */
  datatype Ticket = Ticket(
    id: string,
    user: string,
    text: string,
    timestamp: int,
    status: Status,
    category: Category,
    confidence: nat,
    priority: Priority,
    color: string,
    response: string)

  /** The form values a submission captured when it started. */
  datatype Draft = Draft(text: string, user: string)

  /** Why a submission is refused: one is already in flight (the submit button
      is disabled), or the text or the user name is blank. */
  datatype SubmitError = Busy | MissingField

  datatype Result<T> = Ok(value: T) | Err(error: SubmitError)

  datatype Option<T> = None | Some(value: T)

  /** The ticket built from a draft by a classifier with table `table`: it is
      Processing, carries the submitted fields, its category is the first
      best-scoring one for its text, and its other fields are those of that
      category's row. */
  function NewTicket(table: Table, draft: Draft, id: string, timestamp: int): (t: Ticket)
    ensures t.status == Processing
    ensures t.id == id && t.user == draft.user && t.text == draft.text && t.timestamp == timestamp
    ensures IsFirstBest(table, Lower(draft.text), t.category)
    ensures t.confidence == Confidence(Score(table, t.category, Lower(draft.text)))
    ensures t.priority == table.Lookup(t.category).priority && t.color == table.Lookup(t.category).color
    ensures t.response == table.Lookup(t.category).response
  {
    var c := ClassificationOf(table, draft.text);
    SelectionUnique(table, draft.text, c.category);
    Ticket(id, draft.user, draft.text, timestamp, Processing,
           c.category, c.confidence, c.priority, c.color, c.response)
  }

  /** The status update run after a response: every ticket whose id is `id`
      becomes Responded; nothing else changes. */
  function WithResponded(ts: seq<Ticket>, id: string): (r: seq<Ticket>)
    ensures |r| == |ts|
    ensures forall i :: 0 <= i < |ts| && ts[i].id == id ==> r[i] == ts[i].(status := Responded)
    ensures forall i :: 0 <= i < |ts| && ts[i].id != id ==> r[i] == ts[i]
  {
    if ts == [] then []
    else [if ts[0].id == id then ts[0].(status := Responded) else ts[0]] + WithResponded(ts[1..], id)
  }

  /** An id that no ticket carries leaves the list as it is. */
  lemma {:induction false} WithRespondedAbsent(ts: seq<Ticket>, id: string)
    requires forall i :: 0 <= i < |ts| ==> ts[i].id != id
    ensures WithResponded(ts, id) == ts
  {
    if ts != [] {
      WithRespondedAbsent(ts[1..], id);
    }
  }

  /** Marking twice is marking once. */
  lemma WithRespondedIdempotent(ts: seq<Ticket>, id: string)
    ensures WithResponded(WithResponded(ts, id), id) == WithResponded(ts, id)
  {
  }

  /** The lifecycle of one ticket: after it is prepended and then marked, it is
      first in the list, Responded, with the same id and classification, and
      every older ticket with another id is unchanged. */
  lemma SubmittedThenResponded(ts: seq<Ticket>, t: Ticket)
    ensures var r := WithResponded([t] + ts, t.id);
      && |r| == |ts| + 1
      && r[0] == t.(status := Responded)
      && forall i :: 0 <= i < |ts| && ts[i].id != t.id ==> r[i + 1] == ts[i]
  {
    assert ([t] + ts)[0] == t;
    assert forall i :: 0 <= i < |ts| ==> ([t] + ts)[i + 1] == ts[i];
  }

  class TicketStore {
    /** The tickets, newest first. */
    var tickets: seq<Ticket>
    /** A submission is in flight (the processing flag). */
    var busy: bool
    /** What the submission in flight captured. */
    var pending: Option<Draft>

    /** The classifier, created once with the component and kept. */
    const classifier: Table

    ghost predicate Valid()
      reads this
    {
      busy <==> pending.Some?
    }

    constructor ()
      ensures Valid()
      ensures tickets == [] && !busy && classifier == TABLE
    {
      classifier := TABLE;
      tickets := [];
      busy := false;
      pending := None;
    }

    /** The synchronous part of a submission: refuse while another is in
        flight, refuse blank fields, otherwise raise the processing flag and
        keep the fields for the classification step. */
    method BeginSubmit(text: string, user: string) returns (outcome: Result<()>)
      requires Valid()
      modifies this
      ensures Valid()
      ensures tickets == old(tickets)
      ensures old(busy) ==> outcome == Err(Busy) && busy && pending == old(pending)
      ensures !old(busy) && (IsBlank(text) || IsBlank(user)) ==>
        outcome == Err(MissingField) && !busy
      ensures !old(busy) && !IsBlank(text) && !IsBlank(user) ==>
        outcome == Ok(()) && busy && pending == Some(Draft(text, user))
    {
      if busy {
        return Err(Busy);
      }
      if IsBlank(text) || IsBlank(user) {
        return Err(MissingField);
      }
      busy := true;
      pending := Some(Draft(text, user));
      outcome := Ok(());
    }

    /** The part after the simulated processing delay: classify the captured
        text, put the new ticket first and lower the processing flag. */
    method CompleteSubmit(id: string, timestamp: int) returns (t: Ticket)
      requires Valid() && busy
      modifies this
      ensures Valid() && !busy
      ensures t == NewTicket(classifier, old(pending).value, id, timestamp)
      ensures tickets == [t] + old(tickets)
    {
      var draft := pending.value;
      var c := Classify(classifier, draft.text);
      t := Ticket(id, draft.user, draft.text, timestamp, Processing,
                  c.category, c.confidence, c.priority, c.color, c.response);
      tickets := [t] + tickets;
      busy := false;
      pending := None;
    }

    /** A whole submission with no other action in between. */
    method Submit(text: string, user: string, id: string, timestamp: int) returns (r: Result<Ticket>)
      requires Valid()
      modifies this
      ensures Valid() && busy == old(busy)
      ensures old(busy) ==> r == Err(Busy) && tickets == old(tickets) && pending == old(pending)
      ensures !old(busy) && (IsBlank(text) || IsBlank(user)) ==>
        r == Err(MissingField) && tickets == old(tickets) && pending == old(pending)
      ensures !old(busy) && !IsBlank(text) && !IsBlank(user) ==>
        r == Ok(NewTicket(classifier, Draft(text, user), id, timestamp)) && tickets == [r.value] + old(tickets)
    {
      var outcome := BeginSubmit(text, user);
      if outcome.Err? {
        return Err(outcome.error);
      }
      var t := CompleteSubmit(id, timestamp);
      r := Ok(t);
    }

    /** The delayed auto-response: the ticket with this id becomes Responded. */
    method MarkResponded(id: string)
      requires Valid()
      modifies this
      ensures Valid() && busy == old(busy) && pending == old(pending)
      ensures tickets == WithResponded(old(tickets), id)
    {
      tickets := WithResponded(tickets, id);
    }

    /** The current tickets, newest first. */
    method List() returns (ts: seq<Ticket>)
      ensures ts == tickets
    {
      ts := tickets;
    }
  }
}
