/** The verdict words of gaveld and the score bands they stand for. */
module Labels {

  datatype Label =
    | Clean | Watched | Warned | Quarantined | HouseArrest | Jailed
    | IaReferral | DismissedStale | Dismissed | ConsentDenied

  const THRESH_JAILED: real := 80.0
  const THRESH_HOUSE_ARREST: real := 70.0
  const THRESH_QUARANTINED: real := 50.0
  const THRESH_WARNED: real := 40.0
  const THRESH_WATCHED: real := 20.0

  function ScoreToState(score: real): Label {
    if score >= THRESH_JAILED then Jailed
    else if score >= THRESH_HOUSE_ARREST then HouseArrest
    else if score >= THRESH_QUARANTINED then Quarantined
    else if score >= THRESH_WARNED then Warned
    else if score >= THRESH_WATCHED then Watched
    else Clean
  }

  /** Where the band of a state begins and where it ends. */
  function Lower(state: Label): real {
    match state
    case Jailed => 80.0
    case HouseArrest => 70.0
    case Quarantined => 50.0
    case Warned => 40.0
    case Watched => 20.0
    case _ => 0.0
  }

  function Upper(state: Label): real {
    match state
    case Clean => 20.0
    case Watched => 40.0
    case Warned => 50.0
    case Quarantined => 70.0
    case HouseArrest => 80.0
    case _ => 101.0
  }

  predicate Band(state: Label) {
    state == Clean || state == Watched || state == Warned || state == Quarantined || state == HouseArrest || state == Jailed
  }

  /** A score in range has the one state whose band it lies in, and higher scores have no lower rank. */
  lemma {:induction false} BandExactly(score: real, state: Label, higher: real)
    requires 0.0 <= score <= 100.0
    ensures ScoreToState(score) == state <==> Band(state) && Lower(state) <= score < Upper(state)
    ensures score <= higher ==> StateRank(ScoreToState(score)) <= StateRank(ScoreToState(higher))
    ensures Band(state) && StateRank(ScoreToState(score)) == StateRank(state) ==> ScoreToState(score) == state
  {
  }

  function StateRank(state: Label): nat {
    match state
    case Jailed => 5
    case HouseArrest => 4
    case Quarantined => 3
    case Warned => 2
    case Watched => 1
    case _ => 0
  }

  /** The states that wait for the user's consent. */
  predicate Containment(state: Label) {
    state == Quarantined || state == HouseArrest || state == Jailed
  }
}
