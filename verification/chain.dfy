/** The successor links both chain-of-responsibility demos build with
    `setNext`. Handlers are identified by reference (a `nat` here); each
    holds at most one successor. */
module Chain {

  type Links = map<nat, nat>

  /** `setNext`: the handler's successor becomes `next` (replacing any
      earlier one), no other link changes, and `next` is returned so that
      calls can be chained. */
  function SetNext(links: Links, handler: nat, next: nat): (r: (Links, nat))
    ensures r.1 == next
    ensures r.0.Keys == links.Keys + {handler}
    ensures r.0[handler] == next
    ensures forall h :: h in links && h != handler ==> r.0[h] == links[h]
  {
    (links[handler := next], next)
  }

  /** The handlers a request visits from `start` when each one forwards,
      following at most `fuel` links (links may form a cycle). */
  function Walk(links: Links, start: nat, fuel: nat): (r: seq<nat>)
    ensures 1 <= |r| <= fuel + 1
    ensures r[0] == start
    ensures forall i :: 0 <= i < |r| - 1 ==> r[i] in links && links[r[i]] == r[i + 1]
    ensures |r| <= fuel ==> r[|r| - 1] !in links
    decreases fuel
  {
    if fuel == 0 || start !in links then [start]
    else [start] + Walk(links, links[start], fuel - 1)
  }

  /** `a.setNext(b).setNext(c)` on unlinked handlers builds the chain a, b, c. */
  lemma {:induction false} ChainedSetNext(a: nat, b: nat, c: nat, fuel: nat)
    requires a != b && b != c && a != c
    requires fuel >= 2
    ensures var first := SetNext(map[], a, b);
      var second := SetNext(first.0, first.1, c);
      Walk(second.0, a, fuel) == [a, b, c]
  {
    var links := map[a := b, b := c];
    assert SetNext(SetNext(map[], a, b).0, b, c).0 == links;
    assert Walk(links, c, fuel - 2) == [c];
    assert Walk(links, b, fuel - 1) == [b, c];
  }
}
