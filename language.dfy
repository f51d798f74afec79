/**
 * The language provider: the chosen language is kept in a small key/value
 * store, read back once when the provider mounts, and the provider shows
 * its children only after that read has finished.
 *
 * Only the store's in-memory branch is modelled; the web `localStorage`
 * branch is not.
 */
module Language {
  import opened Wrappers

  /**
   * `storage.getItem` on the in-memory branch: `_data[key] || null`, so a
   * stored empty string reads back as missing.
   */
  function Lookup(data: map<string, string>, key: string): (v: Option<string>)
    ensures v.Some? <==> key in data && data[key] != ""
    ensures v.Some? ==> v.value == data[key]
  {
    if key in data && data[key] != "" then Some(data[key]) else None
  }

  /** A value stored under a key reads back unless it is empty, and no other key's reading changes. */
  lemma LookupAfterStore(data: map<string, string>, key: string, value: string, other: string)
    requires other != key
    ensures Lookup(data[key := value], key) == if value == "" then None else Some(value)
    ensures Lookup(data[key := value], other) == Lookup(data, other)
  {
  }

  /** The in-memory `storage` object with its `_data` dictionary. */
  class MemoryStorage {
    var data: map<string, string>

    constructor ()
      ensures data == map[]
    {
      data := map[];
    }

    method GetItem(key: string) returns (v: Option<string>)
      ensures v == Lookup(data, key)
    {
      if key in data && data[key] != "" {
        v := Some(data[key]);
      } else {
        v := None;
      }
    }

    method SetItem(key: string, value: string)
      modifies this
      ensures data == old(data)[key := value]
    {
      data := data[key := value];
    }
  }

  datatype Lang = Ko | En | Ja

  function Code(l: Lang): string {
    match l
    case Ko => "ko"
    case En => "en"
    case Ja => "ja"
  }

  const StorageKey: string := "appLanguage"

  /** The saved value is adopted only when it is one of the three language codes. */
  function ParseLanguage(saved: Option<string>): (l: Option<Lang>)
    ensures l.Some? <==> saved.Some? && (saved.value == "ko" || saved.value == "en" || saved.value == "ja")
    ensures l.Some? ==> Code(l.value) == saved.value
  {
    match saved
    case Some("ko") => Some(Ko)
    case Some("en") => Some(En)
    case Some("ja") => Some(Ja)
    case _ => None
  }

  /** A stored language code reads back as that language. */
  lemma StoredLanguageRoundTrip(data: map<string, string>, l: Lang)
    ensures ParseLanguage(Lookup(data[StorageKey := Code(l)], StorageKey)) == Some(l)
  {
  }

  /** `LanguageProvider`'s state over the shared storage. */
  class LanguageProvider {
    const storage: MemoryStorage
    var language: Lang
    var isInitialized: bool

    constructor (storage: MemoryStorage)
      ensures this.storage == storage && language == Ko && !isInitialized
    {
      this.storage := storage;
      language := Ko;
      isInitialized := false;
    }

    /** The provider renders its children only once the saved language has been read. */
    predicate RendersChildren()
      reads this
    {
      isInitialized
    }

    /** `loadLanguage`: adopt a valid saved language, keep the current one otherwise, and finish initialising. */
    method LoadLanguage()
      modifies this`language, this`isInitialized
      ensures RendersChildren()
      ensures var saved := ParseLanguage(Lookup(storage.data, StorageKey));
                language == if saved.Some? then saved.value else old(language)
    {
      var saved := storage.GetItem(StorageKey);
      var parsed := ParseLanguage(saved);
      if parsed.Some? {
        language := parsed.value;
      }
      isInitialized := true;
    }

    /** `setLanguage`: change the language, then persist its code under `appLanguage`. */
    method SetLanguage(lang: Lang)
      modifies this`language, storage
      ensures language == lang
      ensures storage.data == old(storage.data)[StorageKey := Code(lang)]
    {
      language := lang;
      storage.SetItem(StorageKey, Code(lang));
    }
  }

  /** A provider mounted over the storage a language was saved to starts in that language. */
  method RemountKeepsLanguage(l: Lang) returns (restored: Lang, shown: bool)
    ensures restored == l && shown
  {
    var storage := new MemoryStorage();
    var first := new LanguageProvider(storage);
    first.LoadLanguage();
    ghost var before := storage.data;
    first.SetLanguage(l);
    StoredLanguageRoundTrip(before, l);
    var second := new LanguageProvider(storage);
    second.LoadLanguage();
    restored, shown := second.language, second.RendersChildren();
  }

  /** With nothing valid saved, a provider stays in Korean. */
  method FreshStartIsKorean() returns (l: Lang)
    ensures l == Ko
  {
    var storage := new MemoryStorage();
    storage.SetItem(StorageKey, "fr");
    var p := new LanguageProvider(storage);
    p.LoadLanguage();
    l := p.language;
  }
}
