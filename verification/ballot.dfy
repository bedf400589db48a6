/** The voter's election page: the ballot being filled in (at most one chosen
    candidate per position), the flag saying the ballot has been cast, the
    screen the page shows, and the announced results. */
module VoterBallot {
  import opened Types
  import Results
  import AdminControl

  /** `election?.status === LIVE && !hasVoted`: whether a click may change
      the ballot. */
  predicate CanChoose(status: Option<ElectionStatus>, hasVoted: bool) {
    status == Some(LIVE) && !hasVoted
  }

  /** `toggleSelection(posId, candId)` on the value of `selections`. */
  function Toggle(selections: map<string, string>, status: Option<ElectionStatus>, hasVoted: bool,
                  posId: string, candId: string): (r: map<string, string>)
    ensures !CanChoose(status, hasVoted) ==> r == selections
    ensures CanChoose(status, hasVoted) ==> r.Keys == selections.Keys + {posId} && r[posId] == candId
    ensures forall p | p in selections && p != posId :: r[p] == selections[p]
  {
    if CanChoose(status, hasVoted) then selections[posId := candId] else selections
  }

  /** The last click on a position wins: choosing twice for the same
      position is the same as choosing only the second time. */
  lemma ToggleReplaces(selections: map<string, string>, status: Option<ElectionStatus>, hasVoted: bool,
                       posId: string, first: string, second: string)
    ensures Toggle(Toggle(selections, status, hasVoted, posId, first), status, hasVoted, posId, second) ==
            Toggle(selections, status, hasVoted, posId, second)
  {
  }

  /** `selections[p.id]` is truthy: a candidate id is recorded and not empty. */
  predicate Selected(selections: map<string, string>, posId: string) {
    posId in selections && selections[posId] != ""
  }

  /** `positions.length > 0 && positions.every(p => selections[p.id])`. */
  predicate AllSelected(positions: seq<Position>, selections: map<string, string>) {
    |positions| > 0 && forall i :: 0 <= i < |positions| ==> Selected(selections, positions[i].id)
  }

  /** The submit bar is shown only while the ballot can change, and its
      button is enabled only when every position has a choice. */
  predicate SubmitEnabled(status: Option<ElectionStatus>, hasVoted: bool, positions: seq<Position>,
                          selections: map<string, string>) {
    CanChoose(status, hasVoted) && AllSelected(positions, selections)
  }

  // ---------------------------------------------------------------------------
  // Screens
  // ---------------------------------------------------------------------------

  datatype Screen = Loading | ResultsView | Confirmation | Closed | BallotView

  /** Which part of the page is rendered: nothing until the election has
      loaded, then results, the confirmation, the closed notice or the
      ballot, in that order of priority. */
  function ScreenFor(status: Option<ElectionStatus>, hasVoted: bool): (r: Screen)
    ensures r == Loading <==> status.None?
    ensures r == ResultsView <==> status == Some(ANNOUNCED)
    ensures r == Confirmation <==> status.Some? && status.value != ANNOUNCED && hasVoted
    ensures r == Closed <==>
      status.Some? && status.value !in {ANNOUNCED, LIVE, CAMPAIGN} && !hasVoted
    ensures r == BallotView <==>
      status.Some? && (status.value == LIVE || status.value == CAMPAIGN) && !hasVoted
  {
    match status
    case None => Loading
    case Some(s) =>
      if s == ANNOUNCED then ResultsView
      else if hasVoted then Confirmation
      else if s != LIVE && s != CAMPAIGN then Closed
      else BallotView
  }

  /** Whenever the vote can be submitted, the ballot is on screen. */
  lemma SubmitBallotShown(status: Option<ElectionStatus>, hasVoted: bool, positions: seq<Position>,
                          selections: map<string, string>)
    ensures SubmitEnabled(status, hasVoted, positions, selections) ==> ScreenFor(status, hasVoted) == BallotView
  {
  }

  // ---------------------------------------------------------------------------
  // Sequences of events
  // ---------------------------------------------------------------------------

  /** The part of the page state the ballot rules depend on. */
  datatype BallotState = BallotState(status: Option<ElectionStatus>, selections: map<string, string>,
                                     hasVoted: bool)

  /** A click on a candidate card, or the server's answer to a submitted ballot. */
  datatype Event = Click(posId: string, candId: string) | VoteReply(accepted: bool)

  function Step(s: BallotState, e: Event): (r: BallotState)
    ensures r.status == s.status
    ensures r.hasVoted == (s.hasVoted || (e.VoteReply? && e.accepted))
  {
    match e
    case Click(posId, candId) => s.(selections := Toggle(s.selections, s.status, s.hasVoted, posId, candId))
    case VoteReply(accepted) => s.(hasVoted := s.hasVoted || accepted)
  }

  function Run(s: BallotState, es: seq<Event>): BallotState
    decreases |es|
  {
    if es == [] then s else Run(Step(s, es[0]), es[1..])
  }

  /** Once a ballot has been accepted nothing can change it any more. */
  lemma {:induction false} VotedBallotIsFrozen(s: BallotState, es: seq<Event>)
    requires s.hasVoted
    ensures Run(s, es) == s
    decreases |es|
  {
    if es != [] {
      assert Step(s, es[0]) == s;
      VotedBallotIsFrozen(s, es[1..]);
    }
  }

  /** A ballot that never received an accepted reply stays open. */
  lemma {:induction false} RejectedBallotStaysOpen(s: BallotState, es: seq<Event>)
    requires !s.hasVoted
    requires forall i :: 0 <= i < |es| ==> es[i] != VoteReply(true)
    ensures !Run(s, es).hasVoted
    decreases |es|
  {
    if es != [] {
      RejectedBallotStaysOpen(Step(s, es[0]), es[1..]);
    }
  }

  predicate NonEmptyClicks(es: seq<Event>) {
    forall i :: 0 <= i < |es| ==> es[i].Click? && es[i].candId != ""
  }

  lemma {:induction false} ClicksKeepSelected(s: BallotState, es: seq<Event>, posId: string)
    requires NonEmptyClicks(es)
    requires Selected(s.selections, posId)
    ensures Selected(Run(s, es).selections, posId)
    decreases |es|
  {
    if es != [] {
      ClicksKeepSelected(Step(s, es[0]), es[1..], posId);
    }
  }

  lemma {:induction false} ClickSelects(s: BallotState, es: seq<Event>, posId: string)
    requires CanChoose(s.status, s.hasVoted)
    requires NonEmptyClicks(es)
    requires exists i :: 0 <= i < |es| && es[i].posId == posId
    ensures Selected(Run(s, es).selections, posId)
    decreases |es|
  {
    var next := Step(s, es[0]);
    if es[0].posId == posId {
      ClicksKeepSelected(next, es[1..], posId);
    } else {
      var i :| 0 <= i < |es| && es[i].posId == posId;
      assert es[1..][i - 1] == es[i];
      ClickSelects(next, es[1..], posId);
    }
  }

  /** On an open ballot, clicking a candidate for every position makes the
      ballot ready to submit. */
  lemma ClickingEveryPositionEnablesSubmit(s: BallotState, es: seq<Event>, positions: seq<Position>)
    requires CanChoose(s.status, s.hasVoted)
    requires NonEmptyClicks(es)
    requires |positions| > 0
    requires forall k :: 0 <= k < |positions| ==> exists i :: 0 <= i < |es| && es[i].posId == positions[k].id
    ensures SubmitEnabled(Run(s, es).status, Run(s, es).hasVoted, positions, Run(s, es).selections)
  {
    forall k | 0 <= k < |positions| ensures Selected(Run(s, es).selections, positions[k].id) {
      ClickSelects(s, es, positions[k].id);
    }
    RejectedBallotStaysOpen(s, es);
    RunKeepsStatus(s, es);
  }

  lemma {:induction false} RunKeepsStatus(s: BallotState, es: seq<Event>)
    ensures Run(s, es).status == s.status
    decreases |es|
  {
    if es != [] {
      RunKeepsStatus(Step(s, es[0]), es[1..]);
    }
  }

  // ---------------------------------------------------------------------------
  // Announced results
  // ---------------------------------------------------------------------------

  /** The candidates the page lists: the result-enriched list once the
      results are announced, the bundle's otherwise. */
  function ShownCandidates(status: ElectionStatus, bundle: seq<Candidate>, results: seq<Candidate>)
    : (r: seq<Candidate>)
    ensures status == ANNOUNCED ==> r == results
    ensures status != ANNOUNCED ==> r == bundle
  {
    if status == ANNOUNCED then results else bundle
  }

  /** One position's results card on the voter page, which always marks the
      winner. */
  function VoterBars(candidates: seq<Candidate>, posId: string): (r: seq<Results.Bar>)
    ensures |r| == |Results.PositionResults(candidates, posId)|
    ensures forall i, j :: 0 <= i < j < |r| ==> Results.Votes(r[i].candidate) >= Results.Votes(r[j].candidate)
    ensures forall i :: 0 <= i < |r| ==> r[i].percent <= 100
    ensures r != [] ==> r[0].winner
  {
    Results.Bars(candidates, posId, true)
  }

  /** Once the results are announced a voter sees exactly the bars the
      election's admin sees. */
  lemma VoterSeesAdminResults(results: seq<Candidate>, posId: string)
    ensures VoterBars(results, posId) == AdminControl.AdminBars(ANNOUNCED, results, posId)
  {
  }

  // ---------------------------------------------------------------------------
  // The page state
  // ---------------------------------------------------------------------------

  /** What the voter bundle request returns. */
  datatype Bundle = Bundle(status: ElectionStatus, positions: seq<Position>, candidates: seq<Candidate>,
                           hasVoted: bool)

  class Ballot {
    var status: Option<ElectionStatus>
    var positions: seq<Position>
    var candidates: seq<Candidate>
    var selections: map<string, string>
    var hasVoted: bool

    constructor()
      ensures status == None && positions == [] && candidates == []
      ensures selections == map[] && !hasVoted
    {
      status := None;
      positions := [];
      candidates := [];
      selections := map[];
      hasVoted := false;
    }

    function State(): BallotState
      reads this
    {
      BallotState(status, selections, hasVoted)
    }

    /** The initial load; `results` is what the results request returns when
        the election is announced. */
    method Load(bundle: Bundle, results: seq<Candidate>)
      modifies this`status, this`positions, this`candidates, this`hasVoted
      ensures status == Some(bundle.status) && positions == bundle.positions
      ensures hasVoted == bundle.hasVoted
      ensures candidates == ShownCandidates(bundle.status, bundle.candidates, results)
      ensures selections == old(selections)
    {
      status := Some(bundle.status);
      positions := bundle.positions;
      hasVoted := bundle.hasVoted;
      if bundle.status == ANNOUNCED {
        candidates := results;
      } else {
        candidates := bundle.candidates;
      }
    }

    method ToggleSelection(posId: string, candId: string)
      modifies this`selections
      ensures selections == Toggle(old(selections), status, hasVoted, posId, candId)
      ensures State() == Step(old(State()), Click(posId, candId))
    {
      if status != Some(LIVE) || hasVoted {
        return;
      }
      selections := selections[posId := candId];
    }

    /** `handleSubmit`. `ready` says whether a user is signed in and the
        page has an election id; without them nothing is sent. Otherwise the
        current selections are sent with the vote request, and `accepted` is
        whether that request succeeded. */
    method Submit(ready: bool, accepted: bool) returns (sent: Option<map<string, string>>)
      modifies this`hasVoted
      ensures sent == (if ready then Some(selections) else None)
      ensures hasVoted == (old(hasVoted) || (ready && accepted))
      ensures ready ==> State() == Step(old(State()), VoteReply(accepted))
      ensures !ready ==> State() == old(State())
    {
      if !ready {
        return None;
      }
      sent := Some(selections);
      if accepted {
        hasVoted := true;
      }
    }

    function CanSubmit(): bool
      reads this
    {
      SubmitEnabled(status, hasVoted, positions, selections)
    }

    function Screen(): (r: Screen)
      reads this
      ensures CanSubmit() ==> r == BallotView
    {
      SubmitBallotShown(status, hasVoted, positions, selections);
      ScreenFor(status, hasVoted)
    }
  }
}
