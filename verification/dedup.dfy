/** The renderer's request deduplication: a map from a key to the pending
    result of the request issued for it, so that concurrent identical requests
    share one call. A pending result is named by a number; settling is a
    separate step. Only two of the renderer's API calls go through it. */
module Dedup {
  import opened JsValues

  /** The renderer's API calls, by the arguments that choose their key. */
  datatype Call =
    | Search(query: string)
    | SearchArtists(query: string)
    | ArtistInfo(id: string)
    | AlbumTracks(id: string)
    | GetUpNexts(id: string)
    | Explore
    | Charts
    | BrowseMood(browseId: string)
    | GetPlaylistVideos(id: string)
    | SetCountry(code: string)
    | GetStreamUrl(url: string)
    | GetVideoStreamUrl(id: string)
    | GetLyrics

  /** The key a call is deduplicated under, if it is deduplicated at all. */
  function KeyOf(c: Call): (k: Option<string>)
    ensures k.Some? <==> c.ArtistInfo? || c.AlbumTracks?
    ensures c.ArtistInfo? ==> k == Some("artist:" + c.id)
    ensures c.AlbumTracks? ==> k == Some("album:" + c.id)
  {
    match c
    case ArtistInfo(id) => Some("artist:" + id)
    case AlbumTracks(id) => Some("album:" + id)
    case _ => None
  }

  /** Two deduplicated calls share a key only when they are the same call: an artist key and
      an album key differ in their second character, and each prefix is followed by the id. */
  lemma {:induction false} KeysNeverCollide(c1: Call, c2: Call)
    requires KeyOf(c1).Some? && KeyOf(c1) == KeyOf(c2)
    ensures c1 == c2
  {
    var k := KeyOf(c1).value;
    assert k[1] == (if c1.ArtistInfo? then 'r' else 'l');
    assert k[1] == (if c2.ArtistInfo? then 'r' else 'l');
    if c1.ArtistInfo? {
      assert c1.id == k[7..] == c2.id;
    } else {
      assert c1.id == k[6..] == c2.id;
    }
  }

  class Inflight {
    var inflight: map<string, nat>   // key -> pending result
    var next: nat                    // the name of the next pending result
    var invoked: seq<Call>           // calls that reached the backend, in order

    /** Every pending result in the map was created earlier, and no two keys share one. */
    ghost predicate Valid()
      reads this
    {
      (forall k :: k in inflight ==> inflight[k] < next) &&
      (forall k1, k2 :: k1 in inflight && k2 in inflight && inflight[k1] == inflight[k2] ==> k1 == k2)
    }

    constructor ()
      ensures Valid() && inflight == map[] && next == 0 && invoked == []
    {
      inflight := map[];
      next := 0;
      invoked := [];
    }

    /** `dedup(key, fn)`: a key already in flight returns its pending result and calls nothing;
        otherwise `fn` runs once and its new pending result is stored under the key. */
    method Dedup(key: string, c: Call) returns (p: nat)
      requires Valid()
      modifies this
      ensures Valid()
      ensures key in old(inflight) ==>
        p == old(inflight)[key] && inflight == old(inflight) && next == old(next) && invoked == old(invoked)
      ensures key !in old(inflight) ==>
        p == old(next) && p !in old(inflight).Values && next == old(next) + 1 &&
        inflight == old(inflight)[key := p] && invoked == old(invoked) + [c]
    {
      if key in inflight {
        return inflight[key];
      }
      p := next;
      invoked := invoked + [c];
      next := next + 1;
      inflight := inflight[key := p];
    }

    /** One call through the renderer's `api` object. */
    method Call(c: Call) returns (p: nat)
      requires Valid()
      modifies this
      ensures Valid()
      ensures KeyOf(c).None? ==>
        p == old(next) && next == old(next) + 1 && inflight == old(inflight) && invoked == old(invoked) + [c]
      ensures KeyOf(c).Some? && KeyOf(c).value in old(inflight) ==>
        p == old(inflight)[KeyOf(c).value] && inflight == old(inflight) && invoked == old(invoked)
      ensures KeyOf(c).Some? && KeyOf(c).value !in old(inflight) ==>
        p == old(next) && inflight == old(inflight)[KeyOf(c).value := p] && invoked == old(invoked) + [c]
    {
      match KeyOf(c) {
        case None =>
          p := next;
          invoked := invoked + [c];
          next := next + 1;
        case Some(key) =>
          p := Dedup(key, c);
      }
    }

    /** The `finally` of a pending result: its key leaves the map whether it resolved or rejected. */
    method Settle(key: string)
      requires Valid()
      modifies this`inflight
      ensures Valid()
      ensures inflight == old(inflight) - {key}
    {
      inflight := inflight - {key};
    }
  }

  /** Two artist requests for the same id while the first is pending share one backend call; an
      album request for the same id does not; once settled, the next request calls again. */
  method SharedRequestScenario(id: string)
  {
    var d := new Inflight();
    var p1 := d.Call(ArtistInfo(id));
    var p2 := d.Call(ArtistInfo(id));
    assert p1 == p2 && d.invoked == [ArtistInfo(id)];
    var p3 := d.Call(AlbumTracks(id));
    assert p3 != p1;
    d.Settle("artist:" + id);
    var p4 := d.Call(ArtistInfo(id));
    assert p4 != p1 && |d.invoked| == 3;
  }
}
