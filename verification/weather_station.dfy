/** The observer pattern's weather station: observers receive the current
    weather when they subscribe and every new weather value afterwards. */
module WeatherStation {
  import Lists

  type Observer = nat

  datatype Update = Update(observer: Observer, weatherData: string)

  datatype Station = Station(observers: seq<Observer>, weatherData: string)

  /** A new station has no observers and reports 'Soleado'. */
  const NewStation: Station := Station([], "Soleado")

  /** `notifyObservers`: one update per observer, in list order, with the
      current weather. */
  function NotifyObservers(st: Station): (t: seq<Update>)
    ensures |t| == |st.observers|
    ensures forall i :: 0 <= i < |t| ==> t[i] == Update(st.observers[i], st.weatherData)
  {
    seq(|st.observers|, i requires 0 <= i < |st.observers| => Update(st.observers[i], st.weatherData))
  }

  /** `subscribe`: appends the observer and sends the current weather to it
      alone. */
  function Subscribe(st: Station, o: Observer): (r: (Station, seq<Update>))
    ensures r.0.observers == st.observers + [o]
    ensures r.0.weatherData == st.weatherData
    ensures r.1 == [Update(o, st.weatherData)]
  {
    (st.(observers := st.observers + [o]), [Update(o, st.weatherData)])
  }

  /** `unsubscribe`: removes every occurrence, keeping the others in order. */
  function Unsubscribe(st: Station, o: Observer): (r: Station)
    ensures o !in r.observers
    ensures forall x :: x != o ==> multiset(r.observers)[x] == multiset(st.observers)[x]
    ensures r.weatherData == st.weatherData
    ensures o !in st.observers ==> r == st
  {
    Lists.RemoveAllCounts(st.observers, o);
    Lists.RemoveAllAbsent(st.observers, o);
    st.(observers := Lists.RemoveAll(st.observers, o))
  }

  /** `filter` keeps the remaining observers in list order: unsubscribing
      works entry by entry from the front and distributes over
      concatenation, which together with the empty list fix the result. */
  lemma UnsubscribeKeepsOrder(x: Observer, s: seq<Observer>, t: seq<Observer>, o: Observer, weatherData: string)
    ensures Unsubscribe(Station([x] + s, weatherData), o).observers
      == (if x == o then [] else [x]) + Unsubscribe(Station(s, weatherData), o).observers
    ensures Unsubscribe(Station(s + t, weatherData), o).observers
      == Unsubscribe(Station(s, weatherData), o).observers + Unsubscribe(Station(t, weatherData), o).observers
  {
    Lists.RemoveAllCons(x, s, o);
    Lists.RemoveAllAppend(s, t, o);
  }

  /** `setWeather`: the value is stored first, so every current observer
      receives the new value. */
  function SetWeather(st: Station, weatherData: string): (r: (Station, seq<Update>))
    ensures r.0.weatherData == weatherData && r.0.observers == st.observers
    ensures |r.1| == |st.observers|
    ensures forall i :: 0 <= i < |r.1| ==> r.1[i] == Update(st.observers[i], weatherData)
  {
    var st' := st.(weatherData := weatherData);
    (st', NotifyObservers(st'))
  }

  /** The observer that subscribes last hears the current weather first,
      and every later weather value after that while it stays subscribed. */
  lemma SubscriberHearsCurrentThenNext(st: Station, o: Observer, next: string)
    ensures var (st1, first) := Subscribe(st, o);
      && first == [Update(o, st.weatherData)]
      && Update(o, next) in SetWeather(st1, next).1
  {
    var st1 := Subscribe(st, o).0;
    assert SetWeather(st1, next).1[|st.observers|] == Update(o, next);
  }

  /** An unsubscribed observer receives no later update. */
  lemma UnsubscribedHearsNothing(st: Station, o: Observer, next: string)
    ensures forall u :: u in SetWeather(Unsubscribe(st, o), next).1 ==> u.observer != o
  {
  }

  /** The demo's opening, with Flutter and React Native as two distinct
      apps: both hear 'Soleado' on subscribing, then 'Lluvioso'. */
  lemma DemoOpening(flutter: Observer, reactNative: Observer)
    ensures var a := Subscribe(NewStation, flutter);
      var b := Subscribe(a.0, reactNative);
      var c := SetWeather(b.0, "Lluvioso");
      && a.1 == [Update(flutter, "Soleado")]
      && b.1 == [Update(reactNative, "Soleado")]
      && c.0 == Station([flutter, reactNative], "Lluvioso")
      && c.1 == [Update(flutter, "Lluvioso"), Update(reactNative, "Lluvioso")]
  {
  }

  /** The late tracker's first update is 'Lluvioso', and 'Nublado' reaches
      all three apps. */
  lemma DemoLateSubscriber(flutter: Observer, reactNative: Observer, tracker: Observer)
    ensures var d := Subscribe(Station([flutter, reactNative], "Lluvioso"), tracker);
      var e := SetWeather(d.0, "Nublado");
      && d.1 == [Update(tracker, "Lluvioso")]
      && e.0 == Station([flutter, reactNative, tracker], "Nublado")
      && e.1 == [Update(flutter, "Nublado"), Update(reactNative, "Nublado"), Update(tracker, "Nublado")]
  {
  }

  /** After React Native leaves, only Flutter and the tracker receive
      'Tormenta eléctrica'. */
  lemma DemoUnsubscribe(flutter: Observer, reactNative: Observer, tracker: Observer)
    requires flutter != reactNative && reactNative != tracker && flutter != tracker
    ensures var f := Unsubscribe(Station([flutter, reactNative, tracker], "Nublado"), reactNative);
      SetWeather(f, "Tormenta eléctrica").1
        == [Update(flutter, "Tormenta eléctrica"), Update(tracker, "Tormenta eléctrica")]
  {
    Lists.RemoveFromDistinct(flutter, reactNative, tracker);
  }
}
