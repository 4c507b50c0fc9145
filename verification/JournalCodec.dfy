/** How a recorded journal entry travels through the log. The encoder copies the id of the destination
    onto itself instead of the entry's id, so the id is lost; this module says exactly what that costs. */
module JournalCodec {
  import opened Common
  import opened LedgerTypes
  import opened Ledger
  import DurableLedger
  import CrashRecovery

  /** The message on the wire; a new one has an empty id and no lines. */
  datatype Proto = Proto(id: string, validTime: U64, recordTime: U64, purpose: string, lines: seq<Line>)

  const NEW_PROTO := Proto("", 0, 0, "", [])

  /** encodeTo(): fields are set on a message that is already there, lines are added to those it has. */
  method EncodeTo(j: JournalEntry, p: Proto) returns (r: Proto)
    ensures r == Encoded(j, p)
  {
    r := p;
    r := r.(id := r.id);
    r := r.(validTime := j.validTime);
    r := r.(recordTime := j.recordTime);
    r := r.(purpose := j.purpose);
    var i := 0;
    while i < |j.lines|
      invariant 0 <= i <= |j.lines| && r == Proto(p.id, j.validTime, j.recordTime, j.purpose, p.lines + j.lines[..i])
    {
      assert j.lines[..i + 1] == j.lines[..i] + [j.lines[i]];
      r := r.(lines := r.lines + [j.lines[i]]);
      i := i + 1;
    }
    assert j.lines[..i] == j.lines;
  }

  function Encoded(j: JournalEntry, p: Proto): Proto {
    Proto(p.id, j.validTime, j.recordTime, j.purpose, p.lines + j.lines)
  }

  function Decoded(p: Proto): JournalEntry {
    JournalEntry(p.id, p.validTime, p.recordTime, p.purpose, p.lines)
  }

  /** An event as it comes back from the log. */
  function Returned(e: Event): Event {
    match e
    case EntryRecorded(j) => EntryRecorded(Decoded(Encoded(j, NEW_PROTO)))
    case _ => e
  }

  /** The round trip is the identity exactly for entries without an id. */
  lemma RoundTripIffNoId(j: JournalEntry)
    ensures Decoded(Encoded(j, NEW_PROTO)) == j.(id := "")
    ensures Returned(EntryRecorded(j)) == EntryRecorded(j) <==> j.id == ""
  {
    assert [] + j.lines == j.lines;
  }

  /** Two recorded entries, whatever their ids, cannot both be replayed: the second trips the assertion
      that its id is new. */
  lemma SecondReplayAborts(b: Books, j: JournalEntry, k: JournalEntry)
    ensures ApplyAll(b, [Returned(EntryRecorded(j)), Returned(EntryRecorded(k))]).None?
  {
    RoundTripIffNoId(j);
    RoundTripIffNoId(k);
    var e, f := Returned(EntryRecorded(j)), Returned(EntryRecorded(k));
    assert [e, f][..1] == [e] && [e][..0] == [];
    assert ApplyAll(b, [e]) == Apply(b, e);
  }

  function ReturnedAll(es: seq<Event>): seq<Event> {
    seq(|es|, i requires 0 <= i < |es| => Returned(es[i]))
  }

  function Recorded(es: seq<Event>): nat {
    if es == [] then 0 else Recorded(es[..|es| - 1]) + if es[|es| - 1].EntryRecorded? then 1 else 0
  }

  /** Replaying what can be applied works through this codec if and only if at most one journal entry is
      among it, counting none if the empty id is already taken. */
  lemma {:induction false} ReplayIffOneEntry(b: Books, es: seq<Event>, r: seq<Event>)
    requires ApplyAll(b, es).Some? && r == ReturnedAll(es)
    ensures ApplyAll(b, r).Some? <==> Recorded(es) <= (if "" in b.done then 0 else 1)
    ensures ApplyAll(b, r).Some? ==>
              && ApplyAll(b, r).value.accounts == ApplyAll(b, es).value.accounts
              && ApplyAll(b, r).value.metadata == ApplyAll(b, es).value.metadata
              && ("" in ApplyAll(b, r).value.done <==> "" in b.done || Recorded(es) == 1)
    decreases es
  {
    if es != [] {
      var n := |es| - 1;
      var r' := ReturnedAll(es[..n]);
      assert r[..n] == r';
      ReplayIffOneEntry(b, es[..n], r');
      if es[n].EntryRecorded? {
        RoundTripIffNoId(es[n].entry);
      }
    }
  }

  /** And a leader that takes over from a replayed state does not know the entry: what was recorded is
      accepted once more. */
  lemma ReplayedIdIsForgotten(b: Books, stored: set<string>, j: JournalEntry)
    requires !Seen(b, stored, j.id) && j.id != "" && Apply(b, Returned(EntryRecorded(j))).Some?
    ensures var b' := Apply(b, Returned(EntryRecorded(j))).value; !Seen(b', stored, j.id)
  {
    RoundTripIffNoId(j);
  }

  /** So the codec carries the events of a log exactly when no entry recorded in it has an id. */
  lemma CarriedIffNoIds(all: seq<DurableLedger.CommandEvents>)
    ensures CrashRecovery.Carried(Returned, all) <==>
              forall i, j {:trigger all[i].events[j]} :: 0 <= i < |all| && 0 <= j < |all[i].events| ==>
                all[i].events[j].EntryRecorded? ==> all[i].events[j].entry.id == ""
  {
    forall e: Event ensures Returned(e) == e <==> (e.EntryRecorded? ==> e.entry.id == "") {
      if e.EntryRecorded? {
        RoundTripIffNoId(e.entry);
      }
    }
  }
}
