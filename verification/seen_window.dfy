/** The bounded memory of accepted event ids that both replay cursors carry
    (moonbite_plugin/incidents.py:298-302, moonbite_plugin/observations.py:233-244). */
module SeenWindows {
  import opened Basics

  const WINDOW := 256

  /** A newly accepted id enters at the end; the oldest ids leave beyond the window. */
  function Remember(seen: seq<string>, id: string): seq<string> {
    var all := if id in seen then seen else seen + [id];
    if |all| > WINDOW then all[|all| - WINDOW..] else all
  }

  /** The most recent ids of a whole history. */
  function Recent(ids: seq<string>): seq<string> {
    if |ids| > WINDOW then ids[|ids| - WINDOW..] else ids
  }

  lemma RememberKeepsShape(seen: seq<string>, id: string)
    requires Distinct(seen) && |seen| <= WINDOW
    ensures Distinct(Remember(seen, id)) && |Remember(seen, id)| <= WINDOW && id in Remember(seen, id)
  {
    var all := if id in seen then seen else seen + [id];
    assert Distinct(all) && id in all;
    if |all| > WINDOW {
      assert all[|all| - WINDOW..][WINDOW - 1] == id;
    }
  }

  /** As long as no remembered id is accepted again, the window is the tail of the history. */
  lemma RememberIsRecent(ids: seq<string>, id: string)
    requires id !in Recent(ids)
    ensures Remember(Recent(ids), id) == Recent(ids + [id])
  {
  }

  /** An id stays in the window until a full window of later ids has been accepted. */
  lemma KeptForAWindow(ids: seq<string>, k: nat)
    requires k < |ids| <= k + WINDOW
    ensures ids[k] in Recent(ids)
  {
    if |ids| > WINDOW {
      assert Recent(ids)[k - (|ids| - WINDOW)] == ids[k];
    }
  }
}
