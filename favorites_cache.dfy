/**
 * utils/favoritesCache.ts: the list of bookmarked articles, kept under the
 * storage key "favorites" and identified by URL. `addFavorite` prepends an
 * article whose URL is not yet listed; `removeFavorite` drops every entry
 * with the URL; both read the list first and then rewrite it.
 *
 * The storage is the `store` field; a storage call that throws is a `false`
 * among the `...Ok` parameters; text that does not parse is the `Corrupt`
 * slot. Every failure is swallowed, as in the source.
 */
module FavoritesCache {
  import opened Articles

  const FAVORITES_KEY: string := "favorites"

  /** What the storage holds under a key: a parsed list of articles, or text that does not parse. */
  datatype Slot = List(articles: seq<Article>) | Corrupt

  /** `favorites.some(fav => fav.url === url)`. */
  predicate HasUrl(favs: seq<Article>, url: string) {
    exists i :: 0 <= i < |favs| && favs[i].url == url
  }

  /** No two favorites share a URL. */
  predicate UniqueUrls(favs: seq<Article>) {
    forall i, j :: 0 <= i < j < |favs| ==> favs[i].url != favs[j].url
  }

  /** `favorites.filter(fav => fav.url !== url)`. */
  function WithoutUrl(favs: seq<Article>, url: string): seq<Article> {
    if favs == [] then []
    else if favs[0].url == url then WithoutUrl(favs[1..], url)
    else [favs[0]] + WithoutUrl(favs[1..], url)
  }

  /** What `getFavorites()` returns when the storage can be read: the stored list, or [] when absent or unparsable. */
  function Read(store: map<string, Slot>): seq<Article> {
    if FAVORITES_KEY in store && store[FAVORITES_KEY].List? then store[FAVORITES_KEY].articles else []
  }

  /** The list `getFavorites()` hands to its callers: a failed read gives []. */
  function Seen(store: map<string, Slot>, readOk: bool): seq<Article> {
    if readOk then Read(store) else []
  }

  /** The storage after `addFavorite(news)`: a write happens only when the URL is not in the list read. */
  function AfterAdd(store: map<string, Slot>, news: Article, readOk: bool, writeOk: bool): map<string, Slot> {
    var favorites := Seen(store, readOk);
    if !HasUrl(favorites, news.url) && writeOk then store[FAVORITES_KEY := List([news] + favorites)]
    else store
  }

  /** The storage after `removeFavorite(url)`: the filtered list is always written. */
  function AfterRemove(store: map<string, Slot>, url: string, readOk: bool, writeOk: bool): map<string, Slot> {
    if writeOk then store[FAVORITES_KEY := List(WithoutUrl(Seen(store, readOk), url))]
    else store
  }

  class Favorites {
    /** The persistent key-value storage, as parsed slots. */
    var store: map<string, Slot>

    constructor ()
      ensures store == map[]
    {
      store := map[];
    }

    /** `getFavorites()`: the stored list; [] when it is absent, unparsable or unreadable. */
    method GetFavorites(readOk: bool) returns (favorites: seq<Article>)
      ensures readOk && FAVORITES_KEY in store && store[FAVORITES_KEY].List? ==>
        favorites == store[FAVORITES_KEY].articles
      ensures !readOk || FAVORITES_KEY !in store || store[FAVORITES_KEY].Corrupt? ==> favorites == []
    {
      if !readOk || FAVORITES_KEY !in store {
        return [];
      }
      match store[FAVORITES_KEY]
      case Corrupt => favorites := [];
      case List(articles) => favorites := articles;
    }

    /** `addFavorite(news)`. */
    method AddFavorite(news: Article, readOk: bool, writeOk: bool)
      modifies this
      ensures store == AfterAdd(old(store), news, readOk, writeOk)
    {
      var favorites := GetFavorites(readOk);
      if !(exists i :: 0 <= i < |favorites| && favorites[i].url == news.url) {
        var newsFavorites := [news] + favorites;
        if writeOk {
          store := store[FAVORITES_KEY := List(newsFavorites)];
        }
      }
    }

    /** `removeFavorite(url)`. */
    method RemoveFavorite(url: string, readOk: bool, writeOk: bool)
      modifies this
      ensures store == AfterRemove(old(store), url, readOk, writeOk)
    {
      var favorites := GetFavorites(readOk);
      var newFavorites := WithoutUrl(favorites, url);
      if writeOk {
        store := store[FAVORITES_KEY := List(newFavorites)];
      }
    }

    /** `isFavorite(url)`: some favorite read from the storage has this URL; false when the read fails. */
    method IsFavorite(url: string, readOk: bool) returns (b: bool)
      ensures b <==> readOk && exists i :: 0 <= i < |Read(store)| && Read(store)[i].url == url
    {
      var favorites := GetFavorites(readOk);
      assert readOk ==> favorites == Read(store);
      b := exists i :: 0 <= i < |favorites| && favorites[i].url == url;
    }
  }

  // ----- the filter -----

  /** The membership, order and absence facts about `WithoutUrl`, by induction on the list. */
  lemma {:induction false} WithoutUrlShape(favs: seq<Article>, url: string)
    ensures forall a :: a in WithoutUrl(favs, url) <==> a in favs && a.url != url
    ensures IsSubsequence(WithoutUrl(favs, url), favs)
    ensures !HasUrl(WithoutUrl(favs, url), url)
    ensures !HasUrl(favs, url) ==> WithoutUrl(favs, url) == favs
  {
    if favs != [] {
      WithoutUrlShape(favs[1..], url);
      var rest := WithoutUrl(favs[1..], url);
      if favs[0].url != url {
        assert WithoutUrl(favs, url) == [favs[0]] + rest;
        assert ([favs[0]] + rest)[1..] == rest;
        if !HasUrl(favs, url) {
          assert !HasUrl(favs[1..], url) by {
            forall i | 0 <= i < |favs[1..]| ensures favs[1..][i].url != url {
              assert favs[1..][i] == favs[i + 1];
            }
          }
        }
        assert !HasUrl([favs[0]] + rest, url) by {
          forall i | 0 <= i < |[favs[0]] + rest| ensures ([favs[0]] + rest)[i].url != url {
            if i > 0 {
              assert ([favs[0]] + rest)[i] == rest[i - 1];
            }
          }
        }
      } else if rest != [] {
        assert rest[0] in rest;
      }
      assert favs == [favs[0]] + favs[1..];
    }
  }


  /** `WithoutUrl` keeps each entry with another URL as many times as it occurs. */
  lemma {:induction false} WithoutUrlCounts(favs: seq<Article>, url: string)
    ensures forall a :: multiset(WithoutUrl(favs, url))[a] == (if a.url == url then 0 else multiset(favs)[a])
  {
    if favs != [] {
      WithoutUrlCounts(favs[1..], url);
      assert favs == [favs[0]] + favs[1..];
      assert multiset(favs) == multiset{favs[0]} + multiset(favs[1..]);
      if favs[0].url != url {
        var rest := WithoutUrl(favs[1..], url);
        assert multiset([favs[0]] + rest) == multiset{favs[0]} + multiset(rest);
      }
    }
  }

  /**
   * `WithoutUrl` keeps exactly the entries whose URL differs, in their
   * original order and each as many times as it occurred, and nothing with
   * the removed URL survives.
   */
  lemma WithoutUrlSpec(favs: seq<Article>, url: string)
    ensures forall a :: a in WithoutUrl(favs, url) <==> a in favs && a.url != url
    ensures IsSubsequence(WithoutUrl(favs, url), favs)
    ensures forall a :: multiset(WithoutUrl(favs, url))[a] == (if a.url == url then 0 else multiset(favs)[a])
    ensures !HasUrl(WithoutUrl(favs, url), url)
    ensures !HasUrl(favs, url) ==> WithoutUrl(favs, url) == favs
  {
    WithoutUrlShape(favs, url);
    WithoutUrlCounts(favs, url);
  }

  /** Filtering keeps URLs unique. */
  lemma {:induction false} WithoutUrlKeepsUnique(favs: seq<Article>, url: string)
    requires UniqueUrls(favs)
    ensures UniqueUrls(WithoutUrl(favs, url))
  {
    if favs != [] {
      WithoutUrlKeepsUnique(favs[1..], url);
      WithoutUrlShape(favs[1..], url);
      var rest := WithoutUrl(favs[1..], url);
      if favs[0].url != url {
        forall j | 0 <= j < |rest| ensures rest[j].url != favs[0].url {
          assert rest[j] in favs[1..];
          var k :| 0 <= k < |favs[1..]| && favs[1..][k] == rest[j];
          assert favs[k + 1] == rest[j];
        }
        var r := [favs[0]] + rest;
        forall i, j | 0 <= i < j < |r| ensures r[i].url != r[j].url {
          assert r[j] == rest[j - 1];
          if i > 0 { assert r[i] == rest[i - 1]; }
        }
      }
    }
  }

  // ----- the operations -----

  /** Adding an article whose URL is not listed writes it in front of the old list. */
  lemma AddPrepends(store: map<string, Slot>, news: Article)
    requires !HasUrl(Read(store), news.url)
    ensures Read(AfterAdd(store, news, true, true)) == [news] + Read(store)
  {
  }

  /** Adding an article whose URL is already listed performs no write; so adding twice equals adding once. */
  lemma AddIdempotent(store: map<string, Slot>, news: Article)
    ensures HasUrl(Read(store), news.url) ==> AfterAdd(store, news, true, true) == store
    ensures AfterAdd(AfterAdd(store, news, true, true), news, true, true) == AfterAdd(store, news, true, true)
    ensures HasUrl(Read(AfterAdd(store, news, true, true)), news.url)
  {
    var s1 := AfterAdd(store, news, true, true);
    if !HasUrl(Read(store), news.url) {
      assert Read(s1)[0] == news;
    }
  }

  /**
   * Removing writes the old list minus every entry with the URL, the rest in
   * order and with their repetitions; the URL is then not a favorite, and
   * removing an unlisted URL rewrites the same list ([] when nothing was
   * stored).
   */
  lemma RemoveSpec(store: map<string, Slot>, url: string)
    ensures forall a :: a in Read(AfterRemove(store, url, true, true)) <==> a in Read(store) && a.url != url
    ensures IsSubsequence(Read(AfterRemove(store, url, true, true)), Read(store))
    ensures forall a ::
      multiset(Read(AfterRemove(store, url, true, true)))[a] == (if a.url == url then 0 else multiset(Read(store))[a])
    ensures !HasUrl(Read(AfterRemove(store, url, true, true)), url)
    ensures !HasUrl(Read(store), url) ==> Read(AfterRemove(store, url, true, true)) == Read(store)
    ensures FAVORITES_KEY !in store ==> AfterRemove(store, url, true, true) == store[FAVORITES_KEY := List([])]
  {
    WithoutUrlSpec(Read(store), url);
  }

  /** Both operations keep the favorites keyed by URL: a list with unique URLs stays so. */
  lemma OperationsKeepUrlsUnique(store: map<string, Slot>, news: Article, url: string, readOk: bool, writeOk: bool)
    requires UniqueUrls(Read(store))
    ensures UniqueUrls(Read(AfterAdd(store, news, readOk, writeOk)))
    ensures UniqueUrls(Read(AfterRemove(store, url, readOk, writeOk)))
  {
    WithoutUrlKeepsUnique(Seen(store, readOk), url);
    var favorites := Seen(store, readOk);
    if !HasUrl(favorites, news.url) && writeOk {
      var r := [news] + favorites;
      forall i, j | 0 <= i < j < |r| ensures r[i].url != r[j].url {
        assert r[j] == favorites[j - 1];
        if i > 0 { assert r[i] == favorites[i - 1]; }
      }
    }
  }

  /**
   * A failed write leaves the storage as it was. A failed READ is swallowed
   * by `getFavorites`, which then reports an empty list: a following write
   * that succeeds replaces the stored list by [news] or by [].
   */
  lemma StorageFailures(store: map<string, Slot>, news: Article, url: string, readOk: bool)
    ensures AfterAdd(store, news, readOk, false) == store
    ensures AfterRemove(store, url, readOk, false) == store
    ensures Read(AfterAdd(store, news, false, true)) == [news]
    ensures Read(AfterRemove(store, url, false, true)) == []
  {
  }
}
