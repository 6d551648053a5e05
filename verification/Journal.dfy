/** The action journal: an append-only log with one snapshot and pruning of old entries. */
module Journal {
  import opened KeyedLists
  import opened RouteTypes

  datatype Entry = Entry(seqNo: nat, action: Action, nodeId: string)

  datatype Snapshot = Snapshot(atSeq: nat, state: RouteTable)

  /** The contents of a journal as a value. */
  datatype Log = Log(entries: seq<Entry>, nextSeq: nat, snapshot: Option<Snapshot>) {

    function Append(action: Action, nodeId: string): Log {
      Log(entries + [Entry(nextSeq, action, nodeId)], nextSeq + 1, snapshot)
    }

    function LastSeq(): nat {
      if |entries| > 0 then entries[|entries| - 1].seqNo else 0
    }
  }

  const EmptyLog := Log([], 1, None)

  /** Sequence numbers strictly increase and stay below the next one to be given. */
  ghost predicate Numbered(log: Log) {
    && log.nextSeq >= 1
    && (forall i :: 0 <= i < |log.entries| ==> 1 <= log.entries[i].seqNo < log.nextSeq)
    && forall i, j :: 0 <= i < j < |log.entries| ==> log.entries[i].seqNo < log.entries[j].seqNo
  }

  /** Entries numbered `lo` or higher, in order. */
  function From(es: seq<Entry>, lo: nat): (r: seq<Entry>)
    ensures |r| <= |es|
  {
    if |es| == 0 then []
    else if es[0].seqNo >= lo then [es[0]] + From(es[1..], lo)
    else From(es[1..], lo)
  }

  lemma {:induction false} FromMember(es: seq<Entry>, lo: nat, e: Entry)
    ensures e in From(es, lo) <==> e in es && e.seqNo >= lo
  {
    if |es| > 0 {
      FromMember(es[1..], lo, e);
      assert es == [es[0]] + es[1..];
    }
  }

  /** Selection keeps the numbering in order, so the members determine the result. */
  lemma {:induction false} FromOrdered(es: seq<Entry>, lo: nat)
    requires forall i, j :: 0 <= i < j < |es| ==> es[i].seqNo < es[j].seqNo
    ensures forall i, j :: 0 <= i < j < |From(es, lo)| ==> From(es, lo)[i].seqNo < From(es, lo)[j].seqNo
  {
    if |es| > 0 {
      var rest := From(es[1..], lo);
      FromOrdered(es[1..], lo);
      if es[0].seqNo >= lo {
        forall j | 0 <= j < |rest| ensures es[0].seqNo < rest[j].seqNo {
          FromMember(es[1..], lo, rest[j]);
          var m :| 0 <= m < |es[1..]| && es[1..][m] == rest[j];
          assert es[m + 1] == rest[j];
        }
      }
    }
  }

  class InMemoryActionLog {
    var entries: seq<Entry>
    var nextSeq: nat
    var snap: Option<Snapshot>

    function Contents(): Log
      reads this
    {
      Log(entries, nextSeq, snap)
    }

    constructor ()
      ensures Contents() == EmptyLog && Numbered(Contents())
    {
      entries, nextSeq, snap := [], 1, None;
    }

    method Append(action: Action, nodeId: string) returns (seqNo: nat)
      modifies this
      ensures Contents() == old(Contents()).Append(action, nodeId)
      ensures seqNo == old(nextSeq)
      ensures old(Numbered(Contents())) ==> Numbered(Contents())
    {
      seqNo := nextSeq;
      nextSeq := nextSeq + 1;
      entries := entries + [Entry(seqNo, action, nodeId)];
    }

    /** Exactly the entries numbered above `after`, oldest first. */
    method Replay(after: nat) returns (r: seq<Entry>)
      ensures r == From(entries, after + 1)
      ensures forall e :: e in r <==> e in entries && e.seqNo > after
      ensures Numbered(Contents()) ==> forall i, j :: 0 <= i < j < |r| ==> r[i].seqNo < r[j].seqNo
    {
      r := From(entries, after + 1);
      forall e ensures e in r <==> e in entries && e.seqNo > after {
        FromMember(entries, after + 1, e);
      }
      if Numbered(Contents()) {
        FromOrdered(entries, after + 1);
      }
    }

    /** The highest number still held; 0 exactly when nothing is held. */
    method LastSeq() returns (n: nat)
      ensures n == Contents().LastSeq()
      ensures |entries| > 0 ==> exists e :: e in entries && e.seqNo == n
      ensures Numbered(Contents()) ==> (n == 0 <==> entries == []) && n < nextSeq && forall e :: e in entries ==> e.seqNo <= n
    {
      n := if |entries| > 0 then entries[|entries| - 1].seqNo else 0;
      if Numbered(Contents()) {
        forall e | e in entries ensures e.seqNo <= n {
          var i :| 0 <= i < |entries| && entries[i] == e;
        }
      }
    }

    method TakeSnapshot(atSeq: nat, state: RouteTable)
      modifies this
      ensures Contents() == old(Contents()).(snapshot := Some(Snapshot(atSeq, state)))
      ensures old(Numbered(Contents())) ==> Numbered(Contents())
    {
      snap := Some(Snapshot(atSeq, state));
    }

    method Prune(beforeSeq: nat) returns (pruned: nat)
      modifies this
      ensures Contents() == old(Contents()).(entries := From(old(entries), beforeSeq))
      ensures pruned == |old(entries)| - |entries|
      ensures old(Numbered(Contents())) ==> Numbered(Contents())
    {
      var before := |entries|;
      ghost var was := entries;
      entries := From(entries, beforeSeq);
      if old(Numbered(Contents())) {
        FromOrdered(was, beforeSeq);
        forall i | 0 <= i < |entries| ensures 1 <= entries[i].seqNo < nextSeq {
          FromMember(was, beforeSeq, entries[i]);
        }
      }
      pruned := before - |entries|;
    }
  }
}
