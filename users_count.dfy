/** The users-count card (src/components/charts/UsersCount.tsx): the numbers
    of students and administrators, their percentages, the refetch on every
    change of `refresh`, and which of its three faces the card shows. */
module UsersCount {
  import opened Wrappers
  import opened Seqs
  import opened UserRecord

  predicate IsAdmin(u: User) { u.role == "Admin" }
  predicate IsStudent(u: User) { u.role == "Student" }

  datatype Counts = Counts(total: nat, students: nat, admins: nat)

  /** The counts `fetchUsers` sets: the list's length and the lengths of its
      "Admin" and "Student" parts. No user is both, so the two together never
      exceed the total. */
  function CountRoles(users: seq<User>): (c: Counts)
    ensures c.total == |users|
    ensures c.admins == |Filter(users, IsAdmin)| && c.students == |Filter(users, IsStudent)|
    ensures c.admins + c.students <= c.total
  {
    FilterDisjointCounts(users, IsAdmin, IsStudent);
    Counts(|users|, |Filter(users, IsStudent)|, |Filter(users, IsAdmin)|)
  }

  /** `Math.round(count / total * 100)` for a positive total, 0 otherwise,
      with the rounding done on integers: half rounds up, as `Math.round`
      does for non-negative numbers. */
  function Percentage(count: nat, total: nat): (p: nat)
    ensures total == 0 ==> p == 0
    ensures total > 0 ==> 2 * total * p <= 200 * count + total < 2 * total * (p + 1)
  {
    if total == 0 then 0 else (200 * count + total) / (2 * total)
  }

  /** A share of the total is at most 100%. */
  lemma PercentageAtMost100(count: nat, total: nat)
    requires count <= total
    ensures Percentage(count, total) <= 100
  {
    if total > 0 {
      var p := Percentage(count, total);
      if p > 100 {
        assert 2 * total * p >= 2 * total * 101 by {
          MulMonotone(2 * total, 101, p);
        }
      }
    }
  }

  lemma MulMonotone(a: nat, b: nat, c: nat)
    requires b <= c
    ensures a * b <= a * c
  {
  }

  /** The two cards' percentages add up to at most 101: each is rounded by
      at most one half. */
  lemma PercentagesAddUp(a: nat, b: nat, total: nat)
    requires a + b <= total
    ensures Percentage(a, total) + Percentage(b, total) <= 101
  {
    if total > 0 {
      var pa, pb := Percentage(a, total), Percentage(b, total);
      assert 2 * total * (pa + pb) <= 200 * (a + b) + 2 * total;
      assert 200 * (a + b) + 2 * total <= 2 * total * 101;
      if pa + pb > 101 {
        MulMonotone(2 * total, 102, pa + pb);
      }
    }
  }

  /** What the card shows: a spinner while loading, the pie when there are
      users, and the "No Users Found" notice otherwise. */
  datatype View = Spinner | Pie(students: nat, admins: nat, studentPercent: nat, adminPercent: nat) | NoUsers

  function ViewOf(loading: bool, c: Counts): (v: View)
    ensures v.Spinner? <==> loading
    ensures v.Pie? <==> !loading && c.total > 0
    ensures v.NoUsers? <==> !loading && c.total == 0
    ensures v.Pie? ==>
      && v.students == c.students && v.admins == c.admins
      && v.studentPercent == Percentage(c.students, c.total) && v.adminPercent == Percentage(c.admins, c.total)
  {
    if loading then Spinner
    else if c.total > 0 then Pie(c.students, c.admins, Percentage(c.students, c.total), Percentage(c.admins, c.total))
    else NoUsers
  }

  /** The percentages the pie shows lie between 0 and 100. */
  lemma PiePercentagesInRange(users: seq<User>)
    ensures var v := ViewOf(false, CountRoles(users));
      v.Pie? ==> v.studentPercent <= 100 && v.adminPercent <= 100 && v.studentPercent + v.adminPercent <= 101
  {
    var c := CountRoles(users);
    PercentageAtMost100(c.students, c.total);
    PercentageAtMost100(c.admins, c.total);
    PercentagesAddUp(c.students, c.admins, c.total);
  }

  /** The card's state. `seenRefresh` is the `refresh` value the effect last
      ran for; `None` before the first render's effects. */
  class Card {
    var counts: Counts
    var loading: bool
    var seenRefresh: Option<int>

    constructor ()
      ensures counts == Counts(0, 0, 0) && loading && seenRefresh == None
    {
      counts, loading, seenRefresh := Counts(0, 0, 0), true, None;
    }

    /** `fetchUsers`: new counts on success, the old ones on failure; the
        spinner stops either way. */
    method FetchUsers(response: Outcome<seq<User>>)
      modifies this`counts, this`loading
      ensures !loading
      ensures response.Ok? ==> counts == CountRoles(response.value)
      ensures response.Fail? ==> counts == old(counts)
    {
      loading := true;
      if response.Ok? {
        counts := CountRoles(response.value);
      }
      loading := false;
    }

    /** A render with the parent's `refresh`: the effect refetches on mount
        and whenever the value differs from the one it last ran for. */
    method Render(refresh: int, response: Outcome<seq<User>>)
      modifies this`counts, this`loading, this`seenRefresh
      ensures seenRefresh == Some(refresh)
      ensures old(seenRefresh) == Some(refresh) ==> counts == old(counts) && loading == old(loading)
      ensures old(seenRefresh) != Some(refresh) ==>
        && !loading
        && (response.Ok? ==> counts == CountRoles(response.value))
        && (response.Fail? ==> counts == old(counts))
    {
      if seenRefresh != Some(refresh) {
        seenRefresh := Some(refresh);
        FetchUsers(response);
      }
    }

    function View(): View
      reads this
    {
      ViewOf(loading, counts)
    }
  }
}
