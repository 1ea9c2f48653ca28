/**
 * The trending video card (components/TrendingItem.jsx): the star that
 * saves the video to the signed-in user's favourites, and the play counter
 * with its five-minute cooldown.
 */
module Trending {
  import opened JsCore

  /** Minimum time, in milliseconds, between two counted plays of one video. */
  const COOLDOWN_MS: int := 5 * 60 * 1000

  /** The video document the card shows. */
  datatype Video = Video(id: string, playedCounts: Option<int>, thumbnail: string)

  /** The signed-in user as the global context holds it. */
  datatype User = User(id: string, username: string, favorite: seq<string>)

  /** The global context's record of the last play of one video. */
  datatype PlayRecord = PlayRecord(lastPlayTime: Option<int>)

  /** Where a press on the card navigates: the player, with the video as parameter. */
  datatype Route = Route(pathname: string, post: Video)

  // ----- Favourites as a list used as a set -----

  /** `favorite.filter(item => item !== id)`. */
  function Without(s: seq<string>, id: string): (r: seq<string>)
    ensures id !in r
    ensures forall x :: x != id ==> (x in r <==> x in s)
    ensures multiset(r) == multiset(s)[id := 0]
  {
    if s == [] then []
    else
      assert s == [s[0]] + s[1..];
      (if s[0] == id then [] else [s[0]]) + Without(s[1..], id)
  }

  /** Filtering works element by element, so it keeps the order of what remains. */
  lemma {:induction false} WithoutConcat(a: seq<string>, b: seq<string>, id: string)
    ensures Without(a + b, id) == Without(a, id) + Without(b, id)
  {
    if a != [] {
      var head := if a[0] == id then [] else [a[0]];
      assert (a + b)[1..] == a[1..] + b;
      calc {
        Without(a + b, id);
        head + Without(a[1..] + b, id);
        { WithoutConcat(a[1..], b, id); }
        head + (Without(a[1..], id) + Without(b, id));
        (head + Without(a[1..], id)) + Without(b, id);
      }
    } else {
      assert a + b == b;
    }
  }

  /** Filtering out an absent id changes nothing. */
  lemma {:induction false} WithoutAbsent(s: seq<string>, id: string)
    requires id !in s
    ensures Without(s, id) == s
  {
    if s != [] {
      WithoutAbsent(s[1..], id);
    }
  }

  /** The favourites after pressing the star: append when absent, filter out when present. */
  function ToggleFavorite(favorite: seq<string>, id: string): (r: seq<string>)
    ensures id in r <==> id !in favorite
    ensures forall x :: x != id ==> (x in r <==> x in favorite)
    ensures id !in favorite ==> |r| == |favorite| + 1 && r[..|favorite|] == favorite && r[|favorite|] == id
  {
    if id in favorite then Without(favorite, id) else favorite + [id]
  }

  /** Saving then unsaving a video that was not saved gives back the same list. */
  lemma SaveThenUnsaveRestores(favorite: seq<string>, id: string)
    requires id !in favorite
    ensures ToggleFavorite(ToggleFavorite(favorite, id), id) == favorite
  {
    WithoutConcat(favorite, [id], id);
    WithoutAbsent(favorite, id);
    assert Without([id], id) == [];
  }

  /** Unsaving then saving moves the video to the end and drops its duplicates. */
  lemma UnsaveThenSaveMovesToEnd(favorite: seq<string>, id: string)
    requires id in favorite
    ensures ToggleFavorite(ToggleFavorite(favorite, id), id) == Without(favorite, id) + [id]
  {
  }

  /** The initial `isSaved`: false when nobody is signed in. */
  predicate InitiallySaved(user: Option<User>, id: string) {
    user.Some? && id in user.value.favorite
  }

  // ----- Play counter -----

  /** `playDataRef.current[id]?.lastPlayTime || 0`. */
  function LastPlayTime(playData: map<string, PlayRecord>, id: string): (t: int)
    ensures id !in playData || playData[id].lastPlayTime.None? ==> t == 0
    ensures id in playData && playData[id].lastPlayTime.Some? ==> t == playData[id].lastPlayTime.value
  {
    if id in playData && playData[id].lastPlayTime.Some? then playData[id].lastPlayTime.value else 0
  }

  /** The cooldown test. */
  predicate CooldownPassed(now: int, lastPlayTime: int)
    ensures CooldownPassed(now, lastPlayTime) ==> now > lastPlayTime
  {
    now - lastPlayTime > COOLDOWN_MS
  }

  /** The cooldown is strict: exactly five minutes later a play is not counted yet, a millisecond later it is. */
  lemma CooldownIsStrict(lastPlayTime: int)
    ensures !CooldownPassed(lastPlayTime + 300000, lastPlayTime)
    ensures CooldownPassed(lastPlayTime + 300001, lastPlayTime)
  {
  }

  /** A video never played (no record, or a record without a time) counts from the epoch. */
  lemma NeverPlayedCountsFromEpoch(playData: map<string, PlayRecord>, id: string, now: int)
    requires id !in playData || playData[id].lastPlayTime.None?
    ensures CooldownPassed(now, LastPlayTime(playData, id)) <==> now > COOLDOWN_MS
  {
  }

  /** The player route for a video. */
  function PlayerRoute(v: Video): Route {
    Route("player/play-screen", v)
  }

  /** The state the card reads from the global context. */
  class AppContext {
    var user: Option<User>
    var playData: map<string, PlayRecord>

    constructor (u: Option<User>, d: map<string, PlayRecord>)
      ensures user == u && playData == d
    {
      user, playData := u, d;
    }
  }

  /** One trending card. */
  class TrendingCard {
    const item: Video
    const ctx: AppContext
    var isSaved: bool
    var playCount: int

    constructor (v: Video, c: AppContext)
      ensures item == v && ctx == c
      ensures isSaved == InitiallySaved(c.user, v.id)
      ensures playCount == v.playedCounts.GetOr(0)
    {
      item, ctx := v, c;
      isSaved := c.user.Some? && v.id in c.user.value.favorite;
      playCount := v.playedCounts.GetOr(0);
    }

    /**
     * `handleAddSaved`. Signed out, the deep copy of the missing user throws
     * before any state changes and the server is not told. Signed in, the
     * favourites toggle, `isSaved` follows them and the server is told to
     * increment (Some(true)) or decrement (Some(false)) the saved counter.
     */
    method HandleAddSaved() returns (countUpdate: Option<bool>)
      modifies this, ctx
      ensures ctx.playData == old(ctx.playData) && playCount == old(playCount)
      ensures old(ctx.user).None? ==>
                countUpdate == None && ctx.user == old(ctx.user) && isSaved == old(isSaved)
      ensures old(ctx.user).Some? ==>
                ctx.user == Some(old(ctx.user).value.(favorite := ToggleFavorite(old(ctx.user).value.favorite, item.id)))
      ensures old(ctx.user).Some? ==>
                isSaved == (item.id !in old(ctx.user).value.favorite) &&
                isSaved == (item.id in ctx.user.value.favorite) &&
                countUpdate == Some(isSaved)
    {
      if ctx.user.None? {
        return None;
      }
      var u := ctx.user.value;
      if item.id !in u.favorite {
        ctx.user := Some(u.(favorite := u.favorite + [item.id]));
        isSaved := true;
        countUpdate := Some(true);
      } else {
        ctx.user := Some(u.(favorite := Without(u.favorite, item.id)));
        isSaved := false;
        countUpdate := Some(false);
      }
    }

    /**
     * `handlePlay` at time `now` (milliseconds). The counter goes up by one,
     * and the new count is sent on, only when the cooldown has passed; the
     * player opens either way.
     */
    method HandlePlay(now: int) returns (playUpdate: Option<int>, route: Route)
      modifies this
      ensures isSaved == old(isSaved)
      ensures CooldownPassed(now, LastPlayTime(ctx.playData, item.id)) ==>
                playCount == old(playCount) + 1 && playUpdate == Some(playCount)
      ensures !CooldownPassed(now, LastPlayTime(ctx.playData, item.id)) ==>
                playCount == old(playCount) && playUpdate == None
      ensures route == PlayerRoute(item)
    {
      var currentTime := now;
      var lastPlayTime := LastPlayTime(ctx.playData, item.id);
      playUpdate := None;
      if currentTime - lastPlayTime > COOLDOWN_MS {
        var newCount := playCount + 1;
        playCount := newCount;
        playUpdate := Some(newCount);
      }
      route := Route("player/play-screen", item);
    }
  }
}
