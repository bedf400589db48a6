/** Shared entities of the election platform and the small string toolkit the
    client and server code relies on (startsWith, includes). */
module Types {

  datatype Option<+T> = None | Some(value: T)

  datatype Result<+T, +E> = Ok(value: T) | Err(error: E)

  /** Portal roles. */
  datatype Role = MASTER | ADMIN | VOTER

  /** Lifecycle of an election; a new election starts in NOT_STARTED. */
  datatype ElectionStatus = NOT_STARTED | CAMPAIGN | LIVE | COMPLETED | ANNOUNCED

  const DefaultStatus: ElectionStatus := NOT_STARTED

  /** Upload categories: profile images and campaign documents. */
  datatype Category = Profile | Campaign

  datatype User = User(id: string, name: string, email: string, role: Role, isActive: bool)

  datatype Position = Position(id: string, electionId: string, title: string, orderIndex: int)

  datatype CandidateFile = CandidateFile(id: string, name: string, fileType: string, url: string)

  /** A candidate as the client sees it; `voteCount` is only present in results. */
  datatype Candidate = Candidate(
    id: string,
    electionId: string,
    positionId: string,
    fullName: string,
    slogan: string,
    imageUrl: Option<string>,
    description: string,
    files: seq<CandidateFile>,
    voteCount: Option<nat>)

  /** A whitelist row as the admin pages see it. */
  datatype WhitelistEntry = WhitelistEntry(
    id: string, electionId: string, email: string,
    isRegistered: bool, passwordPlain: Option<string>, hasVoted: bool)

  // ---------------------------------------------------------------------------
  // Strings
  // ---------------------------------------------------------------------------

  /** `s.startsWith(p)`. */
  predicate StartsWith(s: string, p: string) {
    |p| <= |s| && s[..|p|] == p
  }

  /** `t` occurs in `s` at position `i`. */
  predicate OccursAt(s: string, t: string, i: nat) {
    i + |t| <= |s| && s[i..i + |t|] == t
  }

  /** `s.includes(t)`. */
  predicate Contains(s: string, t: string) {
    exists i: nat | i <= |s| :: OccursAt(s, t, i)
  }

  /** The first position at or after `from` where `t` occurs (`indexOf`). */
  function IndexOf(s: string, t: string, from: nat): (r: Option<nat>)
    ensures r.Some? ==> from <= r.value && OccursAt(s, t, r.value)
    ensures r.Some? ==> forall j :: from <= j < r.value ==> !OccursAt(s, t, j)
    ensures r.None? ==> forall j :: from <= j ==> !OccursAt(s, t, j)
    decreases |s| - from
  {
    if from + |t| > |s| then None
    else if OccursAt(s, t, from) then Some(from)
    else IndexOf(s, t, from + 1)
  }

  /** `s.replace(t, "")` with a string pattern: the first occurrence of `t`
      is removed, and `s` is unchanged when `t` does not occur. */
  function RemoveFirst(s: string, t: string): (r: string)
    ensures !Contains(s, t) ==> r == s
    ensures Contains(s, t) ==> (IndexOf(s, t, 0).Some? &&
      var i := IndexOf(s, t, 0).value; r == s[..i] + s[i + |t|..])
  {
    match IndexOf(s, t, 0)
    case None => s
    case Some(i) => s[..i] + s[i + |t|..]
  }

  // ---------------------------------------------------------------------------
  // Sequences
  // ---------------------------------------------------------------------------

  /** `s.filter(keep)`: the elements that pass, in their original order. */
  function Filter<T(!new)>(s: seq<T>, keep: T -> bool): (r: seq<T>)
    ensures |r| <= |s|
    ensures forall x :: x in r <==> x in s && keep(x)
  {
    if s == [] then []
    else
      assert s == [s[0]] + s[1..];
      (if keep(s[0]) then [s[0]] else []) + Filter(s[1..], keep)
  }

  /** Filtering works piecewise, so the kept elements keep their order. */
  lemma {:induction false} FilterAppend<T(!new)>(a: seq<T>, b: seq<T>, keep: T -> bool)
    ensures Filter(a + b, keep) == Filter(a, keep) + Filter(b, keep)
    decreases |a|
  {
    if a == [] {
      assert a + b == b;
    } else {
      var head := if keep(a[0]) then [a[0]] else [];
      assert (a + b)[0] == a[0];
      assert (a + b)[1..] == a[1..] + b;
      calc {
        Filter(a + b, keep);
        head + Filter(a[1..] + b, keep);
        { FilterAppend(a[1..], b, keep); }
        head + (Filter(a[1..], keep) + Filter(b, keep));
        (head + Filter(a[1..], keep)) + Filter(b, keep);
      }
    }
  }

  /** Each kept value occurs as often as in the input, each dropped one never. */
  lemma {:induction false} FilterCount<T(!new)>(s: seq<T>, keep: T -> bool)
    ensures forall x :: multiset(Filter(s, keep))[x] == if keep(x) then multiset(s)[x] else 0
  {
    if s != [] {
      assert s == [s[0]] + s[1..];
      FilterCount(s[1..], keep);
    }
  }

  lemma FilterSingleton<T(!new)>(x: T, keep: T -> bool)
    ensures Filter([x], keep) == if keep(x) then [x] else []
  {
    assert [x][1..] == [];
  }

  lemma StartsWithAppend(p: string, q: string)
    ensures StartsWith(p + q, p)
  {
    assert (p + q)[..|p|] == p;
  }

  lemma OccursInConcat(a: string, t: string, b: string)
    ensures Contains(a + t + b, t)
  {
    assert OccursAt(a + t + b, t, |a|) by {
      assert (a + t + b)[|a|..|a| + |t|] == t;
    }
  }
}
