/** The translation cache: translations already made during one document
    translation, looked up by target language and original text, with hit
    and miss counters. */
module Cache {
  import opened Wrappers

  /** A cache key. The source builds the string `"{language}:{hash(text)}"`;
      here the key is the pair itself, so two keys are equal exactly when
      language and text are (hash collisions are not modelled). */
  datatype Key = Key(language: string, text: string)

  /** `_make_key`. */
  function MakeKey(text: string, language: string): Key
  {
    Key(language, text)
  }

  /** Distinct (text, language) pairs never share a key. */
  lemma MakeKeyInjective(text: string, language: string, text': string, language': string)
    ensures MakeKey(text, language) == MakeKey(text', language') <==> text == text' && language == language'
  {
  }

  /** What `get` finds for a text in a store, if anything. */
  function Lookup(entries: map<Key, string>, text: string, language: string): Option<string>
  {
    var k := MakeKey(text, language);
    if k in entries then Some(entries[k]) else None
  }

  /** The store after `set`. */
  function Stored(entries: map<Key, string>, text: string, language: string, translation: string): map<Key, string>
  {
    entries[MakeKey(text, language) := translation]
  }

  class TranslationCache {
    var entries: map<Key, string>
    var hits: nat
    var misses: nat

    constructor ()
      ensures entries == map[] && hits == 0 && misses == 0
    {
      entries := map[];
      hits := 0;
      misses := 0;
    }

    /** `get`: the stored translation or `None`; a hit or a miss is
        counted, never both, and the store is left as it was. */
    method Get(text: string, language: string) returns (r: Option<string>)
      modifies this
      ensures r == Lookup(old(entries), text, language)
      ensures entries == old(entries)
      ensures r.Some? ==> hits == old(hits) + 1 && misses == old(misses)
      ensures r.None? ==> misses == old(misses) + 1 && hits == old(hits)
    {
      var key := MakeKey(text, language);
      if key in entries {
        r := Some(entries[key]);
        hits := hits + 1;
      } else {
        r := None;
        misses := misses + 1;
      }
    }

    /** `set`: store (or overwrite) the translation; counters unchanged. */
    method Set(text: string, language: string, translation: string)
      modifies this
      ensures entries == Stored(old(entries), text, language, translation)
      ensures hits == old(hits) && misses == old(misses)
    {
      var key := MakeKey(text, language);
      entries := entries[key := translation];
    }

    /** `stats["size"]`: the number of distinct keys stored. */
    function Size(): (n: nat)
      reads this
      ensures n == |entries.Keys|
    {
      |entries|
    }
  }

  // ---------------------------------------------------------------------
  // Properties of the store

  /** After `set(t, l, x)`, `get(t, l)` finds x. */
  lemma GetAfterSet(entries: map<Key, string>, text: string, language: string, translation: string)
    ensures Lookup(Stored(entries, text, language, translation), text, language) == Some(translation)
  {
  }

  /** A later `set` on the same text and language overwrites the earlier. */
  lemma SetOverwrites(entries: map<Key, string>, text: string, language: string, x: string, y: string)
    ensures Stored(Stored(entries, text, language, x), text, language, y) == Stored(entries, text, language, y)
  {
  }

  /** Entries are independent: storing one text for one language changes
      nothing that `get` finds for any other text or any other language. */
  lemma SetIndependent(entries: map<Key, string>, text: string, language: string, translation: string,
                       text': string, language': string)
    requires text' != text || language' != language
    ensures Lookup(Stored(entries, text, language, translation), text', language') == Lookup(entries, text', language')
  {
  }

  /** The size grows by one exactly when the key was new. */
  lemma SizeAfterSet(entries: map<Key, string>, text: string, language: string, translation: string)
    ensures |Stored(entries, text, language, translation)| ==
            |entries| + (if Lookup(entries, text, language).None? then 1 else 0)
  {
  }

  /** A sequence of gets and sets on a fresh cache: a miss, a set, then a
      hit on the same text and a miss for another language. */
  method GetSetScenario(text: string, translation: string) returns (cache: TranslationCache)
    ensures cache.hits == 1 && cache.misses == 2 && cache.Size() == 1
    ensures cache.entries == map[Key("es", text) := translation]
  {
    cache := new TranslationCache();
    var first := cache.Get(text, "es");
    assert first == None;
    cache.Set(text, "es", translation);
    var second := cache.Get(text, "es");
    assert second == Some(translation);
    var third := cache.Get(text, "fr");
    assert third == None;
    assert |cache.entries| == 1;
  }
}
