/** What the two roster providers share (`src/backend/premier_league_api/base.py`
    and the exceptions they raise): the errors a squad lookup can end in, the
    date parser they both call, and the in-order conversion of raw player
    records that both list comprehensions perform. */
module RosterApi {
  import opened Wrappers
  import opened Squads

  /** The exceptions a `get_team_squad` call can raise. */
  datatype ApiError =
      /** `TeamNotFound`: the name is not one of the provider's teams. */
      TeamNotFound(message: string)
      /** `APIError`: the remote service answered with a failure or no players. */
    | APIError(message: string)
      /** `KeyError`: a cached player record lacks a field. */
    | KeyError(key: string)
      /** `ValueError` from `date.fromisoformat`: the text is not a date. */
    | ValueError(text: string)

  /** A raw player record of the JSON data: an object whose values are text. */
  type RawPlayer = map<string, string>

  /** `date.fromisoformat`: the date a text denotes, or `None` where Python
      raises `ValueError`. The calendar rules are not part of this model. */
  type DateParser = string -> Option<Date>

  /** The list comprehension `[convert(p) for p in raws]`: the records are
      converted front to back and the first exception ends the whole list. */
  function ConvertAll(raws: seq<RawPlayer>, convert: RawPlayer -> Result<Player, ApiError>): (r: Result<seq<Player>, ApiError>)
    ensures r.Success? <==> forall i :: 0 <= i < |raws| ==> convert(raws[i]).Success?
    ensures r.Success? ==> |r.value| == |raws|
    ensures r.Success? ==> forall i :: 0 <= i < |raws| ==> r.value[i] == convert(raws[i]).value
  {
    if raws == [] then Success([])
    else
      match convert(raws[0])
      case Failure(e) => Failure(e)
      case Success(p) =>
        match ConvertAll(raws[1..], convert)
        case Failure(e) =>
          assert !convert(raws[1..][FirstFailure(raws[1..], convert)]).Success?;
          Failure(e)
        case Success(ps) =>
          assert forall i :: 1 <= i < |raws| ==> raws[i] == raws[1..][i - 1];
          Success([p] + ps)
  }

  /** The index of the first record that does not convert, when there is one. */
  function FirstFailure(raws: seq<RawPlayer>, convert: RawPlayer -> Result<Player, ApiError>): (i: nat)
    requires exists j :: 0 <= j < |raws| && convert(raws[j]).Failure?
    ensures i < |raws| && convert(raws[i]).Failure?
    ensures forall j :: 0 <= j < i ==> convert(raws[j]).Success?
  {
    if convert(raws[0]).Failure? then 0
    else
      var j :| 0 <= j < |raws| && convert(raws[j]).Failure?;
      assert raws[1..][j - 1] == raws[j];
      FirstFailure(raws[1..], convert) + 1
  }

  /** A failed conversion reports the exception of the first record that
      fails, every record before it having converted. */
  lemma {:induction false} ConvertAllFirstError(raws: seq<RawPlayer>, convert: RawPlayer -> Result<Player, ApiError>)
    requires ConvertAll(raws, convert).Failure?
    ensures exists i :: 0 <= i < |raws| && convert(raws[i]).Failure?
    ensures var i := FirstFailure(raws, convert);
            ConvertAll(raws, convert).error == convert(raws[i]).error
    decreases |raws|
  {
    if convert(raws[0]).Success? {
      ConvertAllFirstError(raws[1..], convert);
      var j := FirstFailure(raws[1..], convert);
      assert convert(raws[j + 1]).Failure?;
      assert FirstFailure(raws, convert) == j + 1;
    }
  }
}
