/** Weight control: the history of weighings (newest first), the current
    weight, the trend between the last two weighings, the classification
    against the ideal range, and the dialog that validates a new weighing.
    Weights are exact reals; the text the user types is passed in together
    with the number `parseFloat` makes of it. */
module Weight {

  datatype WeightRecord = WeightRecord(id: int, weight: real, date: string, notes: string)

  /** The three weighings the screen starts with, newest first. */
  const InitialRecords: seq<WeightRecord> := [
    WeightRecord(1, 8.5, "2024-12-15", "Peso ideal para a idade"),
    WeightRecord(2, 7.2, "2024-11-15", "Crescimento normal"),
    WeightRecord(3, 5.8, "2024-10-15", "Primeira pesagem")
  ]

  /** What the dialog hands over: the typed texts. */
  datatype WeightRequest = WeightRequest(weight: string, date: string, notes: string)

  /** The record `handleAddWeight` builds; `parsed` is `parseFloat` of the
      typed weight and `now` the clock reading used as id. */
  function NewRecord(req: WeightRequest, parsed: real, now: int): (r: WeightRecord)
    ensures r.id == now && r.weight == parsed && r.date == req.date && r.notes == req.notes
  {
    WeightRecord(now, parsed, req.date, req.notes)
  }

  /** `getIdealWeightRange`: 8.0 minus 1.0 to 8.0 plus 1.5. */
  const IdealMin: real := 8.0 - 1.0
  const IdealMax: real := 8.0 + 1.5

  /** `getCurrentWeight`: the first record's weight whatever its date, 0 for
      an empty history. */
  function CurrentWeight(rs: seq<WeightRecord>): (w: real)
    ensures rs == [] ==> w == 0.0
    ensures rs != [] ==> w == rs[0].weight
  {
    if |rs| > 0 then rs[0].weight else 0.0
  }

  datatype Trend = Increasing | Decreasing | Stable

  /** `getWeightTrend`: compares the two newest weighings with a 0.3 kg
      dead band. */
  function WeightTrend(rs: seq<WeightRecord>): (t: Trend)
    ensures |rs| < 2 ==> t == Stable
    ensures |rs| >= 2 ==> (t == Increasing <==> rs[0].weight - rs[1].weight > 0.3)
    ensures |rs| >= 2 ==> (t == Decreasing <==> rs[0].weight - rs[1].weight < -0.3)
    ensures |rs| >= 2 ==> (t == Stable <==> -0.3 <= rs[0].weight - rs[1].weight <= 0.3)
  {
    if |rs| < 2 then Stable
    else
      var diff := rs[0].weight - rs[1].weight;
      if diff > 0.3 then Increasing else if diff < -0.3 then Decreasing else Stable
  }

  /** Exchanging the two newest weighings turns a rise into a fall and back,
      and keeps a stable trend stable. */
  lemma TrendReverses(a: WeightRecord, b: WeightRecord, rest: seq<WeightRecord>)
    ensures WeightTrend([a, b] + rest) == Increasing <==> WeightTrend([b, a] + rest) == Decreasing
    ensures WeightTrend([a, b] + rest) == Stable <==> WeightTrend([b, a] + rest) == Stable
  {
    assert ([a, b] + rest)[0] == a && ([a, b] + rest)[1] == b;
    assert ([b, a] + rest)[0] == b && ([b, a] + rest)[1] == a;
  }

  datatype WeightStatus = Underweight | Overweight | Ideal

  /** `getWeightStatus` applied to a weight: both ends of the range count as
      ideal. */
  function StatusOf(w: real): (s: WeightStatus)
    ensures s == Underweight <==> w < 7.0
    ensures s == Overweight <==> w > 9.5
    ensures s == Ideal <==> 7.0 <= w <= 9.5
  {
    if w < IdealMin then Underweight else if w > IdealMax then Overweight else Ideal
  }

  /** A heavier pet is never classified lighter. */
  lemma StatusMonotone(w1: real, w2: real)
    requires w1 <= w2
    ensures StatusOf(w2) == Underweight ==> StatusOf(w1) == Underweight
    ensures StatusOf(w1) == Overweight ==> StatusOf(w2) == Overweight
  {
  }

  /** With no weighings the current weight is 0, which is underweight. */
  lemma EmptyHistoryIsUnderweight()
    ensures StatusOf(CurrentWeight([])) == Underweight
    ensures WeightTrend([]) == Stable
  {
  }

  /** The starting history: 8.5 kg, ideal, rising by 1.3 kg. */
  lemma InitialReadings()
    ensures CurrentWeight(InitialRecords) == 8.5
    ensures StatusOf(CurrentWeight(InitialRecords)) == Ideal
    ensures WeightTrend(InitialRecords) == Increasing
  {
  }

  /** The screen's state. */
  class WeightControlScreen {
    var records: seq<WeightRecord>
    var showAddWeight: bool

    constructor ()
      ensures records == InitialRecords && !showAddWeight
    {
      records := InitialRecords;
      showAddWeight := false;
    }

    method SetShowAddWeight(value: bool)
      modifies this
      ensures showAddWeight == value && records == old(records)
    {
      showAddWeight := value;
    }

    /** `handleAddWeight`: the new weighing goes in front, the old ones follow
        in their order, the dialog is hidden. The new weighing becomes the
        current weight even if it is dated before the others, and the trend
        now compares it with the previous current weight. */
    method AddWeight(req: WeightRequest, parsed: real, now: int)
      modifies this
      ensures records == [NewRecord(req, parsed, now)] + old(records)
      ensures records[1..] == old(records)
      ensures CurrentWeight(records) == parsed
      ensures old(records) != [] ==> (WeightTrend(records) == Increasing <==> parsed - CurrentWeight(old(records)) > 0.3)
      ensures old(records) != [] ==> (WeightTrend(records) == Decreasing <==> parsed - CurrentWeight(old(records)) < -0.3)
      ensures !showAddWeight
    {
      records := [NewRecord(req, parsed, now)] + records;
      showAddWeight := false;
    }

    method Summary() returns (current: real, trend: Trend, status: WeightStatus)
      ensures current == CurrentWeight(records)
      ensures trend == WeightTrend(records)
      ensures status == StatusOf(current)
      ensures records == [] ==> status == Underweight && trend == Stable
    {
      current := CurrentWeight(records);
      trend := WeightTrend(records);
      status := StatusOf(current);
    }
  }

  // ---------------------------------------------------------------------
  // Add dialog

  /** How a submission ends: the weight alert, the date alert, or the
      payload handed to `onAddWeight`. */
  datatype Submission = InvalidWeight | MissingDate | Accepted(req: WeightRequest)

  /** `handleSubmit`. The weight is checked first: empty text, or a number
      that is not positive, is refused; then an empty date; otherwise the
      three texts pass through unchanged. */
  function SubmitWeight(weight: string, parsed: real, date: string, notes: string): (s: Submission)
    ensures s == InvalidWeight <==> weight == "" || parsed <= 0.0
    ensures s == MissingDate <==> weight != "" && parsed > 0.0 && date == ""
    ensures s.Accepted? <==> weight != "" && parsed > 0.0 && date != ""
    ensures s.Accepted? ==> s.req == WeightRequest(weight, date, notes)
  {
    if weight == "" || parsed <= 0.0 then InvalidWeight
    else if date == "" then MissingDate
    else Accepted(WeightRequest(weight, date, notes))
  }

  /** An accepted weighing, once added to the history, is the current weight
      and so a positive one. */
  lemma AcceptedWeightIsPositive(weight: string, parsed: real, date: string, notes: string, rs: seq<WeightRecord>, now: int)
    requires SubmitWeight(weight, parsed, date, notes).Accepted?
    ensures CurrentWeight([NewRecord(SubmitWeight(weight, parsed, date, notes).req, parsed, now)] + rs) > 0.0
  {
  }

  class AddWeightDialog {
    var weight: string
    var date: string
    var notes: string

    /** `today` is the host's date for the clock reading, formatted. */
    constructor (today: string)
      ensures weight == "" && date == today && notes == ""
    {
      weight := "";
      date := today;
      notes := "";
    }

    method SetWeight(value: string)
      modifies this
      ensures weight == value && date == old(date) && notes == old(notes)
    {
      weight := value;
    }

    method SetDate(value: string)
      modifies this
      ensures date == value && weight == old(weight) && notes == old(notes)
    {
      date := value;
    }

    method SetNotes(value: string)
      modifies this
      ensures notes == value && weight == old(weight) && date == old(date)
    {
      notes := value;
    }

    /** `parsed` is `parseFloat(weight)`; `today` the formatted date the
        reset writes. A refused submission changes nothing. */
    method Submit(parsed: real, today: string) returns (s: Submission)
      modifies this
      ensures s == SubmitWeight(old(weight), parsed, old(date), old(notes))
      ensures !s.Accepted? ==> weight == old(weight) && date == old(date) && notes == old(notes)
      ensures s.Accepted? ==> weight == "" && date == today && notes == ""
    {
      s := SubmitWeight(weight, parsed, date, notes);
      if s.Accepted? {
        weight, date, notes := "", today, "";
      }
    }
  }
}
