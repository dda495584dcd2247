/** The forecast web API: one list of forecasts shared by every controller
    instance, seeded with five random forecasts when empty, read whole,
    appended to, and overwritten at an index. Requests are taken one at a
    time; the wall clock and the random generator are inputs. */
module WeatherForecastController {
  import opened Wrappers

  /** A forecast. `date` counts 100-nanosecond ticks, as a date-time value does. */
  datatype Forecast = Forecast(date: int, temperatureC: int, summary: Option<string>)

  const Summaries: seq<string> :=
    ["Freezing", "Bracing", "Chilly", "Cool", "Mild", "Warm", "Balmy", "Hot", "Sweltering", "Scorching"]

  const TicksPerDay: int := 864_000_000_000

  /** What seeding one forecast reads from the environment: the current time,
      the random temperature and the random index into `Summaries`. */
  datatype Draw = Draw(now: int, temperature: int, summaryIndex: int)

  /** The ranges the random generator guarantees: a temperature in [-20, 55)
      and a summary index in [0, 10). */
  predicate InRange(d: Draw) {
    -20 <= d.temperature < 55 && 0 <= d.summaryIndex < |Summaries|
  }

  /** The five seeded forecasts, for days 1 to 5 after the time read for each. */
  function SeedForecasts(draws: seq<Draw>): (fs: seq<Forecast>)
    requires |draws| == 5 && forall i :: 0 <= i < |draws| ==> InRange(draws[i])
    ensures |fs| == 5
    ensures forall i :: 0 <= i < |fs| ==> -20 <= fs[i].temperatureC < 55
    ensures forall i :: 0 <= i < |fs| ==> fs[i].summary.Some? && fs[i].summary.value in Summaries
    ensures forall i :: 0 <= i < |fs| ==> fs[i].date == draws[i].now + (i + 1) * TicksPerDay
  {
    seq(|draws|, i requires 0 <= i < |draws| && InRange(draws[i]) =>
      Forecast(draws[i].now + (i + 1) * TicksPerDay, draws[i].temperature, Some(Summaries[draws[i].summaryIndex])))
  }

  /** The decimal form of an integer, with a leading '-' when negative. */
  function DecimalString(n: int): string
    decreases if n < 0 then 1 - n else n
  {
    if n < 0 then "-" + DecimalString(-n)
    else if n < 10 then ["0123456789"[n]]
    else DecimalString(n / 10) + ["0123456789"[n % 10]]
  }

  /** The answer to a `Put`: 404 with a message, or 201 with the stored forecast. */
  datatype PutResponse = NotFound(message: string) | Created(item: Forecast)

  function NotFoundMessage(index: int): string {
    "No forecast at index " + DecimalString(index)
  }

  /** The shared forecast list. */
  class ForecastStore {
    var forecasts: seq<Forecast>

    /** The list starts empty. */
    constructor ()
      ensures forecasts == []
    {
      forecasts := [];
    }

    /** What constructing a controller does to the list: add the five seeded
        forecasts when it is empty, and nothing otherwise. The clock and the
        random source are read only when it is empty. */
    method SeedIfEmpty(draws: seq<Draw>)
      requires forecasts == [] ==> |draws| == 5 && forall i :: 0 <= i < |draws| ==> InRange(draws[i])
      modifies this
      ensures old(forecasts) == [] ==> forecasts == SeedForecasts(draws)
      ensures old(forecasts) != [] ==> forecasts == old(forecasts)
      ensures forecasts != []
    {
      if |forecasts| == 0 {
        forecasts := forecasts + SeedForecasts(draws);
      }
    }

    /** Get: the whole list, unchanged. */
    method Get() returns (items: seq<Forecast>)
      ensures items == forecasts
    {
      items := forecasts;
    }

    /** Post: append at the end and return the forecast created. */
    method Post(newForecast: Forecast) returns (created: Forecast)
      modifies this
      ensures forecasts == old(forecasts) + [newForecast]
      ensures |forecasts| == |old(forecasts)| + 1
      ensures forall i :: 0 <= i < |old(forecasts)| ==> forecasts[i] == old(forecasts)[i]
      ensures created == newForecast
    {
      forecasts := forecasts + [newForecast];
      created := newForecast;
    }

    /** Put: an index outside the list is answered with NotFound and changes
        nothing; otherwise exactly that element is replaced. */
    method Put(index: int, updatedForecast: Forecast) returns (response: PutResponse)
      modifies this
      ensures !(0 <= index < |old(forecasts)|) ==>
        response == NotFound(NotFoundMessage(index)) && forecasts == old(forecasts)
      ensures 0 <= index < |old(forecasts)| ==>
        response == Created(updatedForecast) &&
        |forecasts| == |old(forecasts)| &&
        forecasts[index] == updatedForecast &&
        forall i :: 0 <= i < |forecasts| && i != index ==> forecasts[i] == old(forecasts)[i]
    {
      if index < 0 || index >= |forecasts| {
        return NotFound(NotFoundMessage(index));
      }
      forecasts := forecasts[index := updatedForecast];
      response := Created(updatedForecast);
    }
  }

  /** A sequence of requests against one store: seeding fills an empty store,
      a second controller leaves it alone, an update shows up in the next Get,
      and an index one past the end is refused. */
  method RequestSequence(draws: seq<Draw>, posted: Forecast, updated: Forecast)
    requires |draws| == 5 && forall i :: 0 <= i < |draws| ==> InRange(draws[i])
  {
    var store := new ForecastStore();
    store.SeedIfEmpty(draws);
    var seeded := store.Get();
    assert |seeded| == 5;
    store.SeedIfEmpty(draws);
    var again := store.Get();
    assert again == seeded;
    var created := store.Post(posted);
    var afterPost := store.Get();
    assert |afterPost| == 6 && afterPost[5] == posted && created == posted;
    var ok := store.Put(2, updated);
    var afterPut := store.Get();
    assert ok == Created(updated) && afterPut[2] == updated && afterPut[5] == posted;
    var missing := store.Put(6, updated);
    assert missing.NotFound?;
    var final := store.Get();
    assert final == afterPut;
  }
}
