/** A ledger says of every received packet, by its number, at which place it is. It is right
  * about some containers when each one holds exactly the packets recorded there, once each. */
module RcmLedger {
  import opened RcmScheduler

  type Containers = Place -> seq<Packet>

  ghost predicate Known(received: seq<Packet>, place: seq<Place>, p: Packet, w: Place) {
    p.uid < |received| == |place| && received[p.uid] == p && place[p.uid] == w
  }

  ghost predicate Right(received: seq<Packet>, place: seq<Place>, c: Containers) {
    && |place| == |received|
    && (forall u :: 0 <= u < |received| ==> received[u].uid == u)
    && (forall w, k :: 0 <= k < |c(w)| ==> Known(received, place, c(w)[k], w))
    && (forall w, a, b :: 0 <= a < b < |c(w)| ==> c(w)[a].uid != c(w)[b].uid)
    && (forall u :: 0 <= u < |received| && !place[u].Final() ==> received[u] in c(place[u]))
  }

  /** p is taken from the front of one place and put at the end of another. */
  ghost predicate Moved(c: Containers, c': Containers, p: Packet, from: Place, to: Place) {
    && from != to && c(from) != [] && c(from)[0] == p
    && c'(from) == c(from)[1..]
    && c'(to) == (if to.Final() then [] else c(to) + [p])
    && (forall w :: w != from && w != to ==> c'(w) == c(w))
  }

  lemma MovedKnown(received: seq<Packet>, place: seq<Place>, c: Containers, c': Containers,
                   p: Packet, from: Place, to: Place, w: Place, k: nat)
    requires Right(received, place, c) && Moved(c, c', p, from, to) && k < |c'(w)|
    ensures Known(received, At(place, p, to), c'(w)[k], w)
  {
    assert Known(received, place, c(from)[0], from);
    if w == from {
      assert Known(received, place, c(w)[k + 1], w) && c(w)[k + 1].uid != c(w)[0].uid;
    } else if k < |c(w)| {
      assert Known(received, place, c(w)[k], w);
    }
  }

  lemma MovedApart(received: seq<Packet>, place: seq<Place>, c: Containers, c': Containers,
                   p: Packet, from: Place, to: Place, w: Place, a: nat, b: nat)
    requires Right(received, place, c) && Moved(c, c', p, from, to) && a < b < |c'(w)|
    ensures c'(w)[a].uid != c'(w)[b].uid
  {
    assert Known(received, place, c(from)[0], from);
    if w == from {
      assert c(w)[a + 1].uid != c(w)[b + 1].uid;
    } else if b < |c(w)| {
      assert c(w)[a].uid != c(w)[b].uid;
    } else {
      assert Known(received, place, c(w)[a], w);
    }
  }

  lemma MovedFound(received: seq<Packet>, place: seq<Place>, c: Containers, c': Containers,
                   p: Packet, from: Place, to: Place, u: nat)
    requires Right(received, place, c) && Moved(c, c', p, from, to)
    requires u < |received| && |At(place, p, to)| == |received| && !At(place, p, to)[u].Final()
    ensures received[u] in c'(At(place, p, to)[u])
  {
    assert Known(received, place, c(from)[0], from);
    var w := At(place, p, to)[u];
    if u == p.uid {
      assert c'(w)[|c(w)|] == p;
    } else {
      var k :| 0 <= k < |c(w)| && c(w)[k] == received[u];
      if w == from {
        assert c'(w)[k - 1] == received[u];
      } else {
        assert c'(w)[k] == received[u];
      }
    }
  }

  lemma MovedKeeps(received: seq<Packet>, place: seq<Place>, c: Containers, c': Containers,
                   p: Packet, from: Place, to: Place)
    requires Right(received, place, c) && Moved(c, c', p, from, to)
    ensures Right(received, At(place, p, to), c')
  {
    forall w, k | 0 <= k < |c'(w)| ensures Known(received, At(place, p, to), c'(w)[k], w) {
      MovedKnown(received, place, c, c', p, from, to, w, k);
    }
    forall w, a, b | 0 <= a < b < |c'(w)| ensures c'(w)[a].uid != c'(w)[b].uid {
      MovedApart(received, place, c, c', p, from, to, w, a, b);
    }
    assert Known(received, place, c(from)[0], from);
    forall u | 0 <= u < |received| && !At(place, p, to)[u].Final() ensures received[u] in c'(At(place, p, to)[u]) {
      MovedFound(received, place, c, c', p, from, to, u);
    }
  }

  lemma AllAtEffect(place: seq<Place>, ps: seq<Packet>, w: Place)
    ensures |AllAt(place, ps, w)| == |place|
    ensures forall u :: 0 <= u < |place| ==>
      AllAt(place, ps, w)[u] == if exists k :: 0 <= k < |ps| && ps[k].uid == u then w else place[u]
    decreases ps
  {
    if ps != [] {
      AllAtEffect(At(place, ps[0], w), ps[1..], w);
      forall u | 0 <= u < |place|
        ensures AllAt(place, ps, w)[u] == if exists k :: 0 <= k < |ps| && ps[k].uid == u then w else place[u]
      {
        if k :| 0 <= k < |ps| && ps[k].uid == u {
          if k > 0 { assert ps[1..][k - 1].uid == u; }
        }
        if k :| 0 <= k < |ps[1..]| && ps[1..][k].uid == u { assert ps[k + 1].uid == u; }
      }
    }
  }

  /** All packets of one place go to another, empty one. */
  ghost predicate MovedAll(c: Containers, c': Containers, from: Place, to: Place) {
    && from != to && !to.Final() && c(to) == []
    && c'(from) == [] && c'(to) == c(from)
    && (forall w :: w != from && w != to ==> c'(w) == c(w))
  }

  lemma MovedAllKeeps(received: seq<Packet>, place: seq<Place>, c: Containers, c': Containers,
                      from: Place, to: Place)
    requires Right(received, place, c) && MovedAll(c, c', from, to)
    ensures Right(received, AllAt(place, c(from), to), c')
  {
    var ps := c(from);
    var place' := AllAt(place, ps, to);
    AllAtEffect(place, ps, to);
    forall w, k | 0 <= k < |c'(w)|
      ensures Known(received, place', c'(w)[k], w)
    {
      if w == to {
        assert Known(received, place, ps[k], from);
      } else {
        assert Known(received, place, c(w)[k], w);
      }
    }
    forall u | 0 <= u < |received| && !place'[u].Final()
      ensures received[u] in c'(place'[u])
    {
      if k :| 0 <= k < |ps| && ps[k].uid == u {
        assert Known(received, place, ps[k], from);
        assert c'(to)[k] == received[u];
      } else if place[u] == from {
        assert false;
      }
    }
  }

  /** A new packet appears alone at an empty place. */
  lemma ArrivalKeeps(received: seq<Packet>, place: seq<Place>, c: Containers, c': Containers,
                     p: Packet, at: Place)
    requires Right(received, place, c) && p.uid == |received|
    requires c(at) == [] && c'(at) == [p] && forall w :: w != at ==> c'(w) == c(w)
    ensures Right(received + [p], place + [at], c')
  {
    forall w, k | 0 <= k < |c'(w)|
      ensures Known(received + [p], place + [at], c'(w)[k], w)
    {
      if w != at {
        assert Known(received, place, c(w)[k], w);
      }
    }
  }
}
