/** The Observer pattern: a weather-data subject that keeps a list of
    observers and notifies each of them when its measurements change, and a
    display that pulls temperature and humidity from the subject. */
module WeatherStation {

  /** What a display prints: the display that printed and the two readings. */
  datatype Shown = Shown(display: CurrentCondDisplay, temperature: int, humidity: int)

  /** The screen the displays print to. */
  class Screen {
    var lines: seq<Shown>

    constructor ()
      ensures lines == []
    {
      lines := [];
    }

    method Show(s: Shown)
      modifies this
      ensures lines == old(lines) + [s]
    {
      lines := lines + [s];
    }
  }

  /** What notifying `observers` prints: one line per registered entry, in
      registration order, each with the subject's temperature and humidity. */
  function Notified(observers: seq<CurrentCondDisplay>, temperature: int, humidity: int): (r: seq<Shown>)
    ensures |r| == |observers|
    ensures forall i :: 0 <= i < |observers| ==> r[i] == Shown(observers[i], temperature, humidity)
  {
    if observers == [] then []
    else Notified(observers[..|observers| - 1], temperature, humidity)
           + [Shown(observers[|observers| - 1], temperature, humidity)]
  }

  /** list.remove: the list without its first occurrence of `x`. */
  function RemoveFirst<T(==)>(s: seq<T>, x: T): seq<T> {
    if s == [] then []
    else if s[0] == x then s[1..]
    else [s[0]] + RemoveFirst(s[1..], x)
  }

  /** Removing the first occurrence at index k keeps everything before and
      after it, in order. */
  lemma {:induction false} RemoveFirstAt<T>(s: seq<T>, x: T, k: nat)
    requires k < |s| && s[k] == x && x !in s[..k]
    ensures RemoveFirst(s, x) == s[..k] + s[k + 1..]
  {
    if k > 0 {
      assert s[0] in s[..k];
      assert s[1..][..k - 1] == s[1..k];
      RemoveFirstAt(s[1..], x, k - 1);
      assert [s[0]] + s[1..k] == s[..k];
      assert s[1..][k..] == s[k + 1..];
    }
  }

  /** What removal means: there is an index of the first occurrence, and the
      result is the list with exactly that entry taken out; one entry fewer. */
  lemma {:induction false} RemoveFirstSpec<T>(s: seq<T>, x: T)
    requires x in s
    ensures |RemoveFirst(s, x)| == |s| - 1
    ensures exists k :: 0 <= k < |s| && s[k] == x && x !in s[..k] && RemoveFirst(s, x) == s[..k] + s[k + 1..]
  {
    var k :| 0 <= k < |s| && s[k] == x;
    while k > 0 && x in s[..k]
      invariant 0 <= k < |s| && s[k] == x
      decreases k
    {
      var j :| 0 <= j < k && s[..k][j] == x;
      k := j;
    }
    RemoveFirstAt(s, x, k);
  }

  /** Removing a value the list does not hold leaves the list as it was. */
  lemma {:induction false} RemoveFirstAbsent<T>(s: seq<T>, x: T)
    requires x !in s
    ensures RemoveFirst(s, x) == s
  {
    if s != [] {
      assert s[0] != x;
      assert x !in s[1..];
      RemoveFirstAbsent(s[1..], x);
    }
  }

  /** The subject. */
  class WeatherData {
    var temperature: int
    var humidity: int
    var pressure: int
    var observers: seq<CurrentCondDisplay>

    /** The readings start as given (0 by default) and no observer is registered. */
    constructor (temperature: int := 0, humidity: int := 0, pressure: int := 0)
      ensures this.temperature == temperature && this.humidity == humidity && this.pressure == pressure
      ensures observers == []
    {
      this.temperature := temperature;
      this.humidity := humidity;
      this.pressure := pressure;
      observers := [];
    }

    method GetTemp() returns (t: int)
      ensures t == temperature
    {
      t := temperature;
    }

    method GetHumidity() returns (h: int)
      ensures h == humidity
    {
      h := humidity;
    }

    method GetPressure() returns (p: int)
      ensures p == pressure
    {
      p := pressure;
    }

    /** Appends at the end; an observer may be registered more than once. */
    method RegisterObserver(obs: CurrentCondDisplay)
      modifies this
      ensures observers == old(observers) + [obs]
      ensures temperature == old(temperature) && humidity == old(humidity) && pressure == old(pressure)
    {
      observers := observers + [obs];
    }

    /** Fails when `obs` is not registered; otherwise drops its first entry. */
    method RemoveObserver(obs: CurrentCondDisplay) returns (ok: bool)
      modifies this
      ensures ok <==> obs in old(observers)
      ensures observers == RemoveFirst(old(observers), obs)
      ensures temperature == old(temperature) && humidity == old(humidity) && pressure == old(pressure)
    {
      var k := 0;
      while k < |observers| && observers[k] != obs
        invariant 0 <= k <= |observers|
        invariant obs !in observers[..k]
      {
        assert observers[..k + 1] == observers[..k] + [observers[k]];
        k := k + 1;
      }
      ok := k < |observers|;
      if ok {
        RemoveFirstAt(observers, obs, k);
        observers := observers[..k] + observers[k + 1..];
      } else {
        assert observers[..k] == observers;
        RemoveFirstAbsent(observers, obs);
      }
    }

    /** Calls `update` on every registered entry once, in registration order:
        afterwards every registered display holds the subject's temperature and
        humidity, and nothing else changed. */
    method NotifyObservers(screen: Screen)
      modifies screen, observers
      ensures forall o :: o in observers ==> o.temperature == temperature && o.humidity == humidity
      ensures screen.lines == old(screen.lines) + Notified(observers, temperature, humidity)
    {
      var i := 0;
      while i < |observers|
        invariant 0 <= i <= |observers|
        invariant forall j :: 0 <= j < i ==> observers[j].temperature == temperature && observers[j].humidity == humidity
        invariant screen.lines == old(screen.lines) + Notified(observers[..i], temperature, humidity)
      {
        observers[i].Update(this, screen);
        assert observers[..i + 1][..i] == observers[..i];
        i := i + 1;
      }
      assert observers[..i] == observers;
    }

    /** Stores all three readings, then notifies. */
    method SetMeasurements(temp: int, humidity: int, pressure: int, screen: Screen)
      modifies this, screen, observers
      ensures temperature == temp && this.humidity == humidity && this.pressure == pressure
      ensures observers == old(observers)
      ensures forall o :: o in observers ==> o.temperature == temp && o.humidity == humidity
      ensures screen.lines == old(screen.lines) + Notified(observers, temp, humidity)
    {
      temperature := temp;
      this.humidity := humidity;
      this.pressure := pressure;
      NotifyObservers(screen);
    }
  }

  /** The display: it pulls temperature and humidity from the subject. */
  class CurrentCondDisplay {
    var temperature: int
    var humidity: int

    constructor (temperature: int := 0, humidity: int := 0)
      ensures this.temperature == temperature && this.humidity == humidity
    {
      this.temperature := temperature;
      this.humidity := humidity;
    }

    /** Copies the two readings, then prints them. */
    method Update(subject: WeatherData, screen: Screen)
      modifies this, screen
      ensures temperature == subject.temperature && humidity == subject.humidity
      ensures screen.lines == old(screen.lines) + [Shown(this, subject.temperature, subject.humidity)]
    {
      temperature := subject.temperature;
      humidity := subject.humidity;
      screen.Show(Shown(this, temperature, humidity));
    }
  }
}
