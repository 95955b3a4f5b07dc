/**
 * The first version of the service, scr/main.py: `/temperature` averages the
 * openSenseMap readings and labels the value against two thresholds.
 */
module Legacy {
  import opened Wrappers
  import Temperature

  datatype Label = TooCold | HooHot | Good

  /** The status strings as the endpoint spells them (including "Hoo Hot"). */
  function LabelText(l: Label): string
  {
    match l
    case TooCold => "Too Cold"
    case HooHot => "Hoo Hot"
    case Good => "Good"
  }

  /** The endpoint's body: the average it was given, and its label. */
  datatype Reply = Reply(temperature: real, status: Label)

  /** The if/elif chain of get_temprature. */
  function Classify(temp: real): (r: Reply)
    ensures r.temperature == temp
  {
    if temp < 10.0 then Reply(temp, TooCold)
    else if temp > 37.0 then Reply(temp, HooHot)
    else Reply(temp, Good)
  }

  /** Exactly one label applies: below 10 is too cold, above 37 too hot, [10, 37] with both ends is good. */
  lemma ClassifyBands(temp: real)
    ensures Classify(temp).status == TooCold <==> temp < 10.0
    ensures Classify(temp).status == HooHot <==> temp > 37.0
    ensures Classify(temp).status == Good <==> 10.0 <= temp <= 37.0
    ensures LabelText(Classify(temp).status) in {"Too Cold", "Hoo Hot", "Good"}
  {
  }

  /** A warmer average never gets a colder label. */
  lemma ClassifyMonotone(t1: real, t2: real)
    requires t1 <= t2
    ensures Classify(t1).status == HooHot ==> Classify(t2).status == HooHot
    ensures Classify(t2).status == TooCold ==> Classify(t1).status == TooCold
  {
  }

  /**
   * get_temprature: the average of the pipeline, rounded to two decimals by
   * get_avg_temp before it is returned, and labelled. Python's `round(x, 2)`
   * is the parameter `roundTo2`. An exception of the pipeline escapes the
   * endpoint.
   */
  method GetTemprature(status: int, body: seq<Temperature.Box>, now: int,
                       details: map<Temperature.BoxId, seq<Temperature.Sensor>>,
                       parse: string -> Option<real>, roundTo2: real -> real)
    returns (r: Result<Reply, Temperature.Error>)
    ensures var avg := Temperature.AvgTemp(status, body, now, details, parse);
            (avg.Err? ==> r == Err(avg.error)) && (avg.Ok? ==> r == Ok(Classify(roundTo2(avg.value))))
  {
    var temp := Temperature.GetAvgTemp(status, body, now, details, parse);
    if temp.Err? {
      return Err(temp.error);
    }
    r := Ok(Classify(roundTo2(temp.value)));
  }
}
