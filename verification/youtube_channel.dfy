/** The observer pattern's YouTube channel: a subscriber list and, on each
    upload, one notification per list entry in list order. Subscribers are
    identified by reference. */
module YouTubeChannel {
  import Lists

  type Subscriber = nat

  datatype Notification = Notification(subscriber: Subscriber, videoTitle: string)

  /** `subscribe`: appends the subscriber, even if it is already listed. */
  function Subscribe(subs: seq<Subscriber>, o: Subscriber): (r: seq<Subscriber>)
    ensures |r| == |subs| + 1 && r[..|subs|] == subs && r[|subs|] == o
    ensures multiset(r) == multiset(subs) + multiset{o}
  {
    subs + [o]
  }

  /** `unsubscribe`: every occurrence of the subscriber is removed and the
      others keep their order and multiplicity. */
  function Unsubscribe(subs: seq<Subscriber>, o: Subscriber): (r: seq<Subscriber>)
    ensures o !in r
    ensures forall x :: x != o ==> multiset(r)[x] == multiset(subs)[x]
    ensures o !in subs ==> r == subs
  {
    Lists.RemoveAllCounts(subs, o);
    Lists.RemoveAllAbsent(subs, o);
    Lists.RemoveAll(subs, o)
  }

  /** `filter` keeps the survivors in list order: unsubscribing works entry
      by entry from the front and distributes over concatenation, which
      together with `Unsubscribe([], o) == []` fixes the result. */
  lemma UnsubscribeKeepsOrder(x: Subscriber, s: seq<Subscriber>, t: seq<Subscriber>, o: Subscriber)
    ensures Unsubscribe([x] + s, o) == (if x == o then [] else [x]) + Unsubscribe(s, o)
    ensures Unsubscribe(s + t, o) == Unsubscribe(s, o) + Unsubscribe(t, o)
  {
    Lists.RemoveAllCons(x, s, o);
    Lists.RemoveAllAppend(s, t, o);
  }

  /** `uploadVideo`: the notifications sent, one per list entry, in list order. */
  function UploadVideo(subs: seq<Subscriber>, videoTitle: string): (t: seq<Notification>)
    ensures |t| == |subs|
    ensures forall i :: 0 <= i < |t| ==> t[i] == Notification(subs[i], videoTitle)
  {
    seq(|subs|, i requires 0 <= i < |subs| => Notification(subs[i], videoTitle))
  }

  /** A subscriber listed k times is notified k times per upload. */
  lemma {:induction false} NotifiedOncePerEntry(subs: seq<Subscriber>, videoTitle: string, o: Subscriber)
    ensures multiset(UploadVideo(subs, videoTitle))[Notification(o, videoTitle)] == multiset(subs)[o]
    decreases |subs|
  {
    if |subs| > 0 {
      var n := |subs| - 1;
      NotifiedOncePerEntry(subs[..n], videoTitle, o);
      assert UploadVideo(subs, videoTitle) == UploadVideo(subs[..n], videoTitle) + [Notification(subs[n], videoTitle)];
      assert subs == subs[..n] + [subs[n]];
    }
  }

  /** Who was notified, in order. */
  function Recipients(t: seq<Notification>): seq<Subscriber> {
    seq(|t|, i requires 0 <= i < |t| => t[i].subscriber)
  }

  /** An upload reaches exactly the subscriber list, in its order. */
  lemma UploadReachesList(subs: seq<Subscriber>, videoTitle: string)
    ensures Recipients(UploadVideo(subs, videoTitle)) == subs
  {
  }

  /** The subscriber lists the demo goes through, for any three distinct
      subscribers. */
  lemma DemoLists(melissa: Subscriber, cesar: Subscriber, emin: Subscriber)
    requires melissa != cesar && cesar != emin && melissa != emin
    ensures Subscribe(Subscribe([], melissa), cesar) == [melissa, cesar]
    ensures Subscribe([melissa, cesar], emin) == [melissa, cesar, emin]
    ensures Unsubscribe([melissa, cesar, emin], cesar) == [melissa, emin]
    ensures Unsubscribe([melissa, emin], emin) == [melissa]
    ensures Unsubscribe([melissa], melissa) == []
  {
    Lists.RemoveFromDistinct(melissa, cesar, emin);
    Lists.RemoveFromDistinct(melissa, emin, cesar);
  }

  /** The demo, with Melissa, César and Emin as three distinct subscribers:
      the five uploads reach [Melissa, César], [Melissa, César, Emin],
      [Melissa, Emin], [Melissa] and no one. */
  lemma DemoScenario(melissa: Subscriber, cesar: Subscriber, emin: Subscriber)
    requires melissa != cesar && cesar != emin && melissa != emin
    ensures var s1 := Subscribe(Subscribe([], melissa), cesar);
      var s2 := Subscribe(s1, emin);
      var s3 := Unsubscribe(s2, cesar);
      var s4 := Unsubscribe(s3, emin);
      var s5 := Unsubscribe(s4, melissa);
      && Recipients(UploadVideo(s1, "Receta de Tamales de Angular")) == [melissa, cesar]
      && Recipients(UploadVideo(s2, "Receta de React al pastor")) == [melissa, cesar, emin]
      && Recipients(UploadVideo(s3, "Receta de Vue de choclo")) == [melissa, emin]
      && Recipients(UploadVideo(s4, "Parrillada de NodeJS")) == [melissa]
      && Recipients(UploadVideo(s5, "Docker a la plancha")) == []
  {
    DemoLists(melissa, cesar, emin);
    UploadReachesList([melissa, cesar], "Receta de Tamales de Angular");
    UploadReachesList([melissa, cesar, emin], "Receta de React al pastor");
    UploadReachesList([melissa, emin], "Receta de Vue de choclo");
    UploadReachesList([melissa], "Parrillada de NodeJS");
    UploadReachesList([], "Docker a la plancha");
  }
}
