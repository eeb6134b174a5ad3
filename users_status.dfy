/** The users-status card (src/components/charts/UsersStatus.tsx): the
    numbers of "Ready" and "Blocked" accounts, the refetch on every change of
    `refresh`, and the zero case of each status chart. */
module UsersStatus {
  import opened Wrappers
  import opened Seqs
  import opened UserRecord

  predicate IsReady(u: User) { u.status == "Ready" }
  predicate IsBlocked(u: User) { u.status == "Blocked" }

  datatype Counts = Counts(total: nat, ready: nat, blocked: nat)

  /** The counts `fetchUsers` sets; no account is both ready and blocked. */
  function CountStatuses(users: seq<User>): (c: Counts)
    ensures c.total == |users|
    ensures c.ready == |Filter(users, IsReady)| && c.blocked == |Filter(users, IsBlocked)|
    ensures c.ready + c.blocked <= c.total
  {
    FilterDisjointCounts(users, IsReady, IsBlocked);
    Counts(|users|, |Filter(users, IsReady)|, |Filter(users, IsBlocked)|)
  }

  /** `renderStatusChart`: a bare number for a zero count, a pie otherwise. */
  datatype StatusChart = Placeholder(count: nat, name: string) | Ring(count: nat, name: string, color: string)

  function RenderStatusChart(count: nat, name: string, color: string): (c: StatusChart)
    ensures c.Placeholder? <==> count == 0
    ensures c.count == count && c.name == name
    ensures c.Ring? ==> c.color == color
  {
    if count == 0 then Placeholder(count, name) else Ring(count, name, color)
  }

  datatype View = Loading | NoUsersFound | Charts(ready: StatusChart, blocked: StatusChart)

  /** What the card shows: the loading text, "No users found" for an empty
      list, and otherwise the two status charts. */
  function ViewOf(isLoading: bool, c: Counts): (v: View)
    ensures v.Loading? <==> isLoading
    ensures v.NoUsersFound? <==> !isLoading && c.total == 0
    ensures v.Charts? ==>
      && v.ready == RenderStatusChart(c.ready, "Ready", "#22c55e")
      && v.blocked == RenderStatusChart(c.blocked, "Blocked", "#ef4444")
  {
    if isLoading then Loading
    else if c.total == 0 then NoUsersFound
    else Charts(RenderStatusChart(c.ready, "Ready", "#22c55e"), RenderStatusChart(c.blocked, "Blocked", "#ef4444"))
  }

  /** When users are loaded and each is ready or blocked, at least one of
      the two status charts is drawn as a pie. */
  lemma SomeChartDrawn(users: seq<User>)
    requires |users| > 0
    requires forall k :: 0 <= k < |users| ==> IsReady(users[k]) || IsBlocked(users[k])
    ensures var v := ViewOf(false, CountStatuses(users));
      v.Charts? && (v.ready.Ring? || v.blocked.Ring?)
  {
    var c := CountStatuses(users);
    assert users[0] in Filter(users, IsReady) || users[0] in Filter(users, IsBlocked);
  }

  class Card {
    var counts: Counts
    var isLoading: bool
    var seenRefresh: Option<int>

    constructor ()
      ensures counts == Counts(0, 0, 0) && isLoading && seenRefresh == None
    {
      counts, isLoading, seenRefresh := Counts(0, 0, 0), true, None;
    }

    method FetchUsers(response: Outcome<seq<User>>)
      modifies this`counts, this`isLoading
      ensures !isLoading
      ensures response.Ok? ==> counts == CountStatuses(response.value)
      ensures response.Fail? ==> counts == old(counts)
    {
      isLoading := true;
      if response.Ok? {
        counts := CountStatuses(response.value);
      }
      isLoading := false;
    }

    /** A render with the parent's `refresh`; see UsersCount.Card.Render. */
    method Render(refresh: int, response: Outcome<seq<User>>)
      modifies this`counts, this`isLoading, this`seenRefresh
      ensures seenRefresh == Some(refresh)
      ensures old(seenRefresh) == Some(refresh) ==> counts == old(counts) && isLoading == old(isLoading)
      ensures old(seenRefresh) != Some(refresh) ==>
        && !isLoading
        && (response.Ok? ==> counts == CountStatuses(response.value))
        && (response.Fail? ==> counts == old(counts))
    {
      if seenRefresh != Some(refresh) {
        seenRefresh := Some(refresh);
        FetchUsers(response);
      }
    }

    function View(): View
      reads this
    {
      ViewOf(isLoading, counts)
    }
  }
}
