// components/tools/CalmTales.tsx — a story library: stories generated per
// category and cached, filtered by mood with favourites first, a reader
// with a favourite toggle, random picks and ambient sounds.
module CalmTales {
  import opened Wrappers
  import JsMath
  import StableSort

  datatype Category = CalmTalesCategory | HappyLaughs | KindHearts | MiniAdventures
  datatype Mood = Calm | Funny | Motivating | Wholesome

  datatype Tale = Tale(id: string, title: string, author: string, quote: string, content: string,
                       coverColor1: string, coverColor2: string, moods: seq<Mood>)

  /** The story cache: one entry per fetched category, in the order the
      entries were added (the order `Object.values` lists them in). */
  type Cache = seq<(Category, seq<Tale>)>

  predicate Cached(cache: Cache, c: Category)
  {
    exists k :: 0 <= k < |cache| && cache[k].0 == c
  }

  /** `storyCache[c] || []`. */
  function Lookup(cache: Cache, c: Category): (r: seq<Tale>)
    ensures !Cached(cache, c) ==> r == []
    ensures Cached(cache, c) && cache[0].0 == c ==> r == cache[0].1
  {
    if cache == [] then []
    else if cache[0].0 == c then cache[0].1
    else
      assert forall k :: 1 <= k < |cache| ==> cache[k] == cache[1..][k - 1];
      Lookup(cache[1..], c)
  }

  /** `Object.values(storyCache).flat()`. */
  function AllStories(cache: Cache): seq<Tale>
  {
    if cache == [] then [] else cache[0].1 + AllStories(cache[1..])
  }

  lemma {:induction false} AllStoriesAppend(cache: Cache, e: (Category, seq<Tale>))
    ensures AllStories(cache + [e]) == AllStories(cache) + e.1
  {
    if cache == [] {
      assert cache + [e] == [e];
      assert AllStories([e]) == e.1 + AllStories([e][1..]);
    } else {
      assert (cache + [e])[1..] == cache[1..] + [e];
      AllStoriesAppend(cache[1..], e);
    }
  }

  lemma {:induction false} LookupAppend(cache: Cache, e: (Category, seq<Tale>), c: Category)
    requires !Cached(cache, e.0)
    ensures Lookup(cache + [e], c) == if c == e.0 then e.1 else Lookup(cache, c)
  {
    if cache == [] {
      assert cache + [e] == [e];
    } else {
      assert (cache + [e])[1..] == cache[1..] + [e];
      assert !Cached(cache[1..], e.0) by {
        assert forall k :: 0 <= k < |cache[1..]| ==> cache[1..][k] == cache[k + 1];
      }
      LookupAppend(cache[1..], e, c);
    }
  }

  // ---------------------------------------------------------------- favourites

  /** `favs.filter(id => id !== storyId)`. */
  function Remove(favs: seq<string>, id: string): (r: seq<string>)
    ensures forall x :: x in r <==> x in favs && x != id
    ensures id !in favs ==> r == favs
  {
    if favs == [] then []
    else (if favs[0] == id then [] else [favs[0]]) + Remove(favs[1..], id)
  }

  /** handleToggleFavorite. */
  function ToggleFavorite(favs: seq<string>, id: string): (r: seq<string>)
  {
    if id in favs then Remove(favs, id) else favs + [id]
  }

  /** The toggle flips the story's membership and no other. */
  lemma ToggleFlips(favs: seq<string>, id: string, other: string)
    ensures (id in ToggleFavorite(favs, id)) == (id !in favs)
    ensures other != id ==> (other in ToggleFavorite(favs, id) <==> other in favs)
  {
  }

  /** Toggling twice restores every membership, and a story that was not a
      favourite leaves the list exactly as it was. */
  lemma ToggleTwice(favs: seq<string>, id: string, x: string)
    ensures x in ToggleFavorite(ToggleFavorite(favs, id), id) <==> x in favs
    ensures id !in favs ==> ToggleFavorite(ToggleFavorite(favs, id), id) == favs
  {
    if id !in favs {
      assert id in favs + [id];
      RemoveAppended(favs, id);
    }
  }

  lemma {:induction false} RemoveAppended(favs: seq<string>, id: string)
    requires id !in favs
    ensures Remove(favs + [id], id) == favs
  {
    if favs == [] {
      assert [] + [id] == [id];
      assert Remove([id], id) == [] + Remove([id][1..], id);
    } else {
      assert (favs + [id])[1..] == favs[1..] + [id];
      RemoveAppended(favs[1..], id);
    }
  }

  // ---------------------------------------------------------------- the listing

  /** The mood filter; None is 'All'. */
  function ByMood(stories: seq<Tale>, mood: Option<Mood>): (r: seq<Tale>)
    ensures mood == None ==> r == stories
    ensures mood.Some? ==> forall t :: t in r <==> t in stories && mood.value in t.moods
    ensures multiset(r) <= multiset(stories)
  {
    if mood == None || stories == [] then stories
    else
      assert stories == [stories[0]] + stories[1..];
      (if mood.value in stories[0].moods then [stories[0]] else []) + ByMood(stories[1..], mood)
  }

  function FavouriteKey(favs: seq<string>): Tale -> real
  {
    (t: Tale) => if t.id in favs then 0.0 else 1.0
  }

  /** `filteredStories`: the mood filter, then favourites to the front by a
      stable sort. */
  function Filtered(stories: seq<Tale>, mood: Option<Mood>, favs: seq<string>): seq<Tale>
  {
    StableSort.Sort(ByMood(stories, mood), FavouriteKey(favs))
  }

  /** The listing is the mood-filtered stories, each once: the favourites in
      their order, then the others in theirs. */
  lemma FilteredFavouritesFirst(stories: seq<Tale>, mood: Option<Mood>, favs: seq<string>)
    ensures var m := ByMood(stories, mood);
            Filtered(stories, mood, favs)
            == StableSort.WithKey(m, FavouriteKey(favs), 0.0) + StableSort.WithKey(m, FavouriteKey(favs), 1.0)
    ensures multiset(Filtered(stories, mood, favs)) == multiset(ByMood(stories, mood))
    ensures forall i, j :: 0 <= i < j < |Filtered(stories, mood, favs)| && Filtered(stories, mood, favs)[j].id in favs
              ==> Filtered(stories, mood, favs)[i].id in favs
  {
    var m := ByMood(stories, mood);
    var key := FavouriteKey(favs);
    StableSort.TwoKeySort(m, key, 0.0, 1.0);
    StableSort.SortPermutes(m, key);
    StableSort.SortSorted(m, key);
    var r := Filtered(stories, mood, favs);
    forall i, j | 0 <= i < j < |r| && r[j].id in favs ensures r[i].id in favs {
      assert key(r[i]) <= key(r[j]);
    }
  }

  // ---------------------------------------------------------------- the component

  class Library {
    var favorites: seq<string>
    var cache: Cache
    var isLoading: bool
    var activeCategory: Category
    var activeMood: Option<Mood>
    var selected: Option<Tale>
    var isPlayingSound: bool
    var currentSoundUrl: string

    /** Each category is cached at most once. */
    predicate Valid()
      reads this
    {
      forall i, j :: 0 <= i < j < |cache| ==> cache[i].0 != cache[j].0
    }

    constructor (favorites: seq<string>, firstSound: string)
      ensures Valid()
      ensures this.favorites == favorites && cache == [] && isLoading
      ensures activeCategory == CalmTalesCategory && activeMood == None && selected == None
      ensures !isPlayingSound && currentSoundUrl == firstSound
    {
      this.favorites := favorites;
      cache := [];
      isLoading := true;
      activeCategory := CalmTalesCategory;
      activeMood := None;
      selected := None;
      isPlayingSound := false;
      currentSoundUrl := firstSound;
    }

    function Listing(): seq<Tale>
      reads this
    {
      Filtered(Lookup(cache, activeCategory), activeMood, favorites)
    }

    /** The fetch effect, with `tales` the generated stories: a category
        already in the cache is not fetched again, and a fetch adds only the
        active category's entry. */
    method FetchStories(tales: seq<Tale>)
      requires Valid()
      modifies this
      ensures Valid()
      ensures Cached(old(cache), activeCategory) ==> cache == old(cache) && isLoading == old(isLoading)
      ensures !Cached(old(cache), activeCategory) ==>
                cache == old(cache) + [(activeCategory, tales)] && !isLoading
                && AllStories(cache) == AllStories(old(cache)) + tales
                && forall c :: Lookup(cache, c) == if c == activeCategory then tales else Lookup(old(cache), c)
      ensures activeCategory == old(activeCategory) && activeMood == old(activeMood)
      ensures favorites == old(favorites) && selected == old(selected)
      ensures isPlayingSound == old(isPlayingSound) && currentSoundUrl == old(currentSoundUrl)
    {
      if Cached(cache, activeCategory) {
        return;
      }
      var entry := (activeCategory, tales);
      AllStoriesAppend(cache, entry);
      forall c ensures Lookup(cache + [entry], c) == if c == activeCategory then tales else Lookup(cache, c) {
        LookupAppend(cache, entry, c);
      }
      cache := cache + [(activeCategory, tales)];
      isLoading := false;
    }

    method SelectCategory(c: Category)
      modifies this`activeCategory
      ensures activeCategory == c
    {
      activeCategory := c;
    }

    method SelectMood(m: Option<Mood>)
      modifies this`activeMood
      ensures activeMood == m
    {
      activeMood := m;
    }

    method SelectStory(t: Tale)
      modifies this`selected
      ensures selected == Some(t)
    {
      selected := Some(t);
    }

    method BackToLibrary()
      modifies this`selected
      ensures selected == None
    {
      selected := None;
    }

    /** The library's random button: nothing on an empty cache, otherwise a
        pick over all cached stories. */
    method RandomStory(rand: real)
      requires 0.0 <= rand < 1.0
      modifies this`selected
      ensures AllStories(cache) == [] ==> selected == old(selected)
      ensures AllStories(cache) != [] ==>
                selected == Some(AllStories(cache)[JsMath.PickIndex(rand, |AllStories(cache)|)])
    {
      var all := AllStories(cache);
      if |all| > 0 {
        selected := Some(all[JsMath.PickIndex(rand, |all|)]);
      }
    }

    /** The reader's random button has no guard: on an empty list it selects
        `undefined`, which closes the reader. */
    method ReaderRandomStory(rand: real)
      requires 0.0 <= rand < 1.0
      modifies this`selected
      ensures AllStories(cache) == [] ==> selected == None
      ensures AllStories(cache) != [] ==>
                selected == Some(AllStories(cache)[JsMath.PickIndex(rand, |AllStories(cache)|)])
    {
      var all := AllStories(cache);
      if |all| > 0 {
        selected := Some(all[JsMath.PickIndex(rand, |all|)]);
      } else {
        selected := None;
      }
    }

    /** The reader's heart button on the story shown. */
    method ToggleFavoriteOf(t: Tale)
      modifies this`favorites
      ensures favorites == ToggleFavorite(old(favorites), t.id)
    {
      favorites := ToggleFavorite(favorites, t.id);
    }

    /** handleSoundToggle: the sound playing is stopped, any other starts. */
    method SoundToggle(url: string)
      modifies this`isPlayingSound, this`currentSoundUrl
      ensures old(isPlayingSound) && old(currentSoundUrl) == url ==>
                !isPlayingSound && currentSoundUrl == url
      ensures !(old(isPlayingSound) && old(currentSoundUrl) == url) ==>
                isPlayingSound && currentSoundUrl == url
    {
      if isPlayingSound && currentSoundUrl == url {
        isPlayingSound := false;
      } else {
        currentSoundUrl := url;
        isPlayingSound := true;
      }
    }
  }
}
