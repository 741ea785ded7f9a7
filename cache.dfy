/**
 * The wiki-content cache of the backend: a table from API URL to the fetched page and
 * the time it was stored, read back only while it is young enough.  Times are whole
 * seconds supplied by the caller.
 */
module Cache {
  import opened Wrappers

  const CacheExpiryMinutes := 15

  datatype Entry = Entry(content: string, cachedAt: int)

  /** `get_cached_content` over a table: nothing for a URL never cached or for an entry
      more than `maxAgeMinutes` old; an entry exactly that old is still returned. */
  function Lookup(entries: map<string, Entry>, url: string, now: int, maxAgeMinutes: int): (r: Option<string>)
    ensures r.Some? <==> url in entries && now - entries[url].cachedAt <= maxAgeMinutes * 60
    ensures r.Some? ==> r.value == entries[url].content
  {
    if url !in entries then None
    else if now - entries[url].cachedAt > maxAgeMinutes * 60 then None
    else Some(entries[url].content)
  }

  class WikiCache {
    var entries: map<string, Entry>

    constructor ()
      ensures entries == map[]
    {
      entries := map[];
    }

    /** `get_cached_content` on this cache's table. */
    function Get(url: string, now: int, maxAgeMinutes: int): Option<string>
      reads this
    {
      Lookup(entries, url, now, maxAgeMinutes)
    }

    /** `get_cached_content` with its default age limit of 15 minutes. */
    function GetFresh(url: string, now: int): (r: Option<string>)
      reads this
      ensures r.Some? <==> url in entries && now - entries[url].cachedAt <= 900
      ensures r.Some? ==> r.value == entries[url].content
    {
      Get(url, now, CacheExpiryMinutes)
    }

    /** `cache_content`: INSERT OR REPLACE, stamped with the current time. */
    method Put(url: string, content: string, now: int)
      modifies this
      ensures entries == old(entries)[url := Entry(content, now)]
      ensures forall m :: m >= 0 ==> Get(url, now, m) == Some(content)
      ensures forall u, t, m :: u != url ==> Get(u, t, m) == old(Get(u, t, m))
    {
      entries := entries[url := Entry(content, now)];
    }

    /** `clear_all_cache`: every entry goes. */
    method Clear()
      modifies this
      ensures entries == map[]
      ensures forall u, t, m :: Get(u, t, m) == None
    {
      entries := map[];
    }
  }
}
