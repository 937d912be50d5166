/** The leads table and the funnel event log (backend/app/services/leads). */
module LeadTable {
  import opened Wrappers
  import opened BotEngine
  import opened ChatKeys
  import opened Conversations

  class Leads {
    var rows: seq<Lead>
    var events: seq<FunnelEvent>

    ghost function Contents(): Funnel
      reads this
    {
      Funnel(rows, events)
    }

    constructor ()
      ensures Contents() == Funnel([], [])
    {
      rows, events := [], [];
    }

    method CreateLead(ref: ChatRef, title: string, now: int) returns (id: nat)
      modifies this
      ensures id == |old(rows)| && Contents() == Create(old(Contents()), ref, title, now)
    {
      id := |rows|;
      rows := rows +
        [Lead.Lead(ref.business, ChatRefText(ref.business, ref.conversation), title, InProgress, map[], 0, now)];
    }

    method LogEvent(lead: Option<nat>, kind: EventKind)
      modifies this
      ensures Contents() == Log(old(Contents()), lead, kind)
    {
      events := events + [FunnelEvent(lead, kind)];
    }

    method UpdateLead(business: string, id: nat, answers: map<string, Answer>, lastStep: nat, now: int)
      modifies this
      ensures Contents() == Update(old(Contents()), business, id, Progressed(answers, lastStep, now))
    {
      if id < |rows| && rows[id].business == business {
        rows := rows[id := rows[id].(answers := answers, lastStep := lastStep, lastActivity := now)];
      }
    }

    method CompleteLead(business: string, id: nat, answers: map<string, Answer>, now: int)
      modifies this
      ensures Contents() == Update(old(Contents()), business, id, Finished(answers, now))
    {
      if id < |rows| && rows[id].business == business {
        rows := rows[id := rows[id].(answers := answers, status := Fresh, lastActivity := now)];
      }
    }

    method TouchActivity(business: string, id: nat, now: int)
      modifies this
      ensures Contents() == Update(old(Contents()), business, id, Touched(now))
    {
      if id < |rows| && rows[id].business == business {
        rows := rows[id := rows[id].(lastActivity := now)];
      }
    }

    method SetLeadStatus(business: string, id: nat, status: LeadStatus, now: int)
      modifies this
      ensures Contents() == Update(old(Contents()), business, id, Restated(status, now))
    {
      if id < |rows| && rows[id].business == business {
        rows := rows[id := rows[id].(status := status, lastActivity := now)];
      }
    }

    /** The newest lead of a conversation. */
    method ActiveLeadByConversation(ref: ChatRef) returns (r: Option<nat>)
      ensures r == Newest(rows, ref)
    {
      r := None;
      for i := 0 to |rows|
        invariant r == Newest(rows[..i], ref)
      {
        assert rows[..i + 1][..i] == rows[..i];
        if rows[i].business == ref.business && rows[i].chatRef == ChatRefText(ref.business, ref.conversation)
           && (r.None? || rows[r.value].lastActivity <= rows[i].lastActivity) {
          r := Some(i);
        }
      }
      assert rows[..|rows|] == rows;
    }

    /** Flip every in-progress lead idle for over an hour, log one event each and
        return their chat references. */
    method SweepAbandonedLeads(now: int, demo: set<string>) returns (refs: seq<string>)
      modifies this
      ensures var ids := IdleLeads(old(rows), now, demo, |old(rows)|);
        Contents() == Flip(old(Contents()), ids) && refs == RefsOf(old(Contents()), ids)
    {
      hide ChatRefText, Flip, RefsOf;
      refs := [];
      ghost var before := Contents();
      NoneFlipped(before);
      for id := 0 to |rows|
        invariant |rows| == |before.leads|
        invariant forall j :: id <= j < |rows| ==> rows[j] == before.leads[j]
        invariant Contents() == Flip(before, IdleLeads(before.leads, now, demo, id))
        invariant refs == RefsOf(before, IdleLeads(before.leads, now, demo, id))
      {
        ghost var ids := IdleLeads(before.leads, now, demo, id);
        assert ids + [] == ids;
        if rows[id].status.InProgress? && rows[id].lastActivity < now - ABANDONED_AFTER_SECONDS &&
          rows[id].business !in demo {
          OneMoreFlipped(before, ids, id);
          refs := refs + [rows[id].chatRef];
          rows := rows[id := rows[id].(status := Abandoned)];
          LogEvent(Some(id), Swept);
        }
      }
    }
  }

  lemma NoneFlipped(f: Funnel)
    ensures Flip(f, []) == f && RefsOf(f, []) == []
  {
  }

  lemma OneMoreFlipped(f: Funnel, ids: seq<nat>, id: nat)
    requires id < |f.leads| && forall i :: 0 <= i < |ids| ==> ids[i] < |f.leads|
    ensures
      var g := Flip(f, ids);
      Flip(f, ids + [id]) == Log(g.(leads := g.leads[id := g.leads[id].(status := Abandoned)]), Some(id), Swept)
    ensures RefsOf(f, ids + [id]) == RefsOf(f, ids) + [f.leads[id].chatRef]
  {
    assert (ids + [id])[..|ids|] == ids;
  }
}
