/**
 * The translation provider: the selected language, its persistence under the
 * `'language'` storage key, and `t`, the dotted-key lookup with an English and
 * then a key-itself fallback.
 */
module Language {
  import opened Wrappers
  import opened Strings
  import opened LocalStorage

  /** A node of a locale file: a string, or an object of named children. */
  datatype Entry = Leaf(text: string) | Node(children: map<string, Entry>)

  /** The locale table: language code to the root object of that locale. */
  type Translations = map<string, Entry>

  const English := "en"
  const LanguageKey := "language"

  /**
   * `x?.[k]`: undefined stays undefined; a leaf has no named children. Only own keys
   * of an object are children: a name in `InheritedNames` that is not an own key is
   * missing here, where JavaScript would return the inherited member.
   */
  function Child(e: Option<Entry>, k: string): Option<Entry>
  {
    if e.Some? && e.value.Node? && k in e.value.children then Some(e.value.children[k]) else None
  }

  /** `x?.[k1]?.[k2]...`: follows the path from `e`, one segment at a time. */
  function Walk(e: Option<Entry>, path: seq<string>): Option<Entry>
    decreases |path|
  {
    if path == [] then e else Walk(Child(e, path[0]), path[1..])
  }

  /** `translations[lang]`, undefined for a code that is not a key. */
  function Root(table: Translations, lang: string): Option<Entry>
  {
    if lang in table then Some(table[lang]) else None
  }

  /** Truthiness of a looked-up value: only the empty string is falsy (objects never are). */
  predicate Truthy(e: Entry)
  {
    e != Leaf("")
  }

  /** `v || key`. */
  function OrKey(v: Option<Entry>, key: string): Entry
  {
    if v.Some? && Truthy(v.value) then v.value else Leaf(key)
  }

  /**
   * What `t(key)` returns while `lang` is selected: a truthy value found along the
   * whole path in the selected locale or in English, or else the key itself.
   */
  function Translate(table: Translations, lang: string, key: string): (r: Entry)
    ensures Truthy(r) || r == Leaf(key)
    ensures r == Leaf(key)
            || Walk(Root(table, lang), Split(key, '.')) == Some(r)
            || (Walk(Root(table, lang), Split(key, '.')) == None && Walk(Root(table, English), Split(key, '.')) == Some(r))
  {
    var keys := Split(key, '.');
    var found := Walk(Root(table, lang), keys);
    if found == None then OrKey(Walk(Root(table, English), keys), key)
    else OrKey(found, key)
  }

  /** Once a step is undefined, the rest of the walk is undefined. */
  lemma {:induction false} WalkUndefined(path: seq<string>)
    ensures Walk(None, path) == None
    decreases |path|
  {
    if path != [] {
      WalkUndefined(path[1..]);
    }
  }

  /** Walking a longer path is walking its prefix and then the rest. */
  lemma {:induction false} WalkAppend(e: Option<Entry>, p: seq<string>, q: seq<string>)
    ensures Walk(e, p + q) == Walk(Walk(e, p), q)
    decreases |p|
  {
    if p == [] {
      assert p + q == q;
    } else {
      assert (p + q)[1..] == p[1..] + q;
      WalkAppend(Child(e, p[0]), p[1..], q);
    }
  }

  /** The walk is undefined exactly when the start is undefined or some segment is missing at the point it is looked up. */
  lemma WalkFailsIff(e: Option<Entry>, path: seq<string>)
    ensures Walk(e, path) == None <==>
              (e == None || exists i :: 0 <= i < |path| && Child(Walk(e, path[..i]), path[i]) == None)
  {
    if Walk(e, path) == None && e != None {
      MissingStepExists(e, path);
    }
    if e == None {
      WalkUndefined(path);
    } else if exists i :: 0 <= i < |path| && Child(Walk(e, path[..i]), path[i]) == None {
      var i :| 0 <= i < |path| && Child(Walk(e, path[..i]), path[i]) == None;
      WalkAppend(e, path[..i + 1], path[i + 1..]);
      WalkAppend(e, path[..i], [path[i]]);
      assert path[..i + 1] == path[..i] + [path[i]];
      assert path == path[..i + 1] + path[i + 1..];
      WalkUndefined(path[i + 1..]);
    }
  }

  lemma {:induction false} MissingStepExists(e: Option<Entry>, path: seq<string>)
    requires e != None && Walk(e, path) == None
    ensures exists i :: 0 <= i < |path| && Child(Walk(e, path[..i]), path[i]) == None
    decreases |path|
  {
    assert path != [];
    var next := Child(e, path[0]);
    if next == None {
      assert path[..0] == [];
      assert Child(Walk(e, path[..0]), path[0]) == None;
    } else {
      MissingStepExists(next, path[1..]);
      var j :| 0 <= j < |path[1..]| && Child(Walk(next, path[1..][..j]), path[1..][j]) == None;
      assert path[..j + 1][1..] == path[1..][..j];
      assert Walk(e, path[..j + 1]) == Walk(next, path[1..][..j]);
      assert Child(Walk(e, path[..j + 1]), path[j + 1]) == None;
    }
  }

  /** When every segment resolves in the selected language to a truthy value, `t` returns that value. */
  lemma TranslateResolved(table: Translations, lang: string, key: string, v: Entry)
    requires Walk(Root(table, lang), Split(key, '.')) == Some(v)
    requires Truthy(v)
    ensures Translate(table, lang, key) == v
  {
  }

  /**
   * When some segment is missing in the selected language (not an own key of the object
   * reached so far, or looked up on a string), `t` returns the English value for the
   * whole path, or else the key.
   */
  lemma TranslateMissingSegment(table: Translations, lang: string, key: string, i: nat)
    requires i < |Split(key, '.')|
    requires Child(Walk(Root(table, lang), Split(key, '.')[..i]), Split(key, '.')[i]) == None
    ensures Translate(table, lang, key) == OrKey(Walk(Root(table, English), Split(key, '.')), key)
    ensures var en := Walk(Root(table, English), Split(key, '.'));
            Translate(table, lang, key) == (if en.Some? && Truthy(en.value) then en.value else Leaf(key))
  {
    WalkFailsIff(Root(table, lang), Split(key, '.'));
  }

  /** A value that resolves to the empty string yields the key, not the English text. */
  lemma TranslateEmptyValue(table: Translations, lang: string, key: string)
    requires Walk(Root(table, lang), Split(key, '.')) == Some(Leaf(""))
    ensures Translate(table, lang, key) == Leaf(key)
  {
  }

  /** For a non-empty key, `t` never returns the empty string. */
  lemma TranslateNeverEmpty(table: Translations, lang: string, key: string)
    requires key != ""
    ensures Truthy(Translate(table, lang, key))
  {
  }

  /** With English selected, `t` returns the English value or the key. */
  lemma TranslateEnglish(table: Translations, key: string)
    ensures var en := Walk(Root(table, English), Split(key, '.'));
            Translate(table, English, key) == (if en.Some? && Truthy(en.value) then en.value else Leaf(key))
  {
  }

  /** The language codes the provider accepts: keys of the table. */
  predicate IsKnownLanguage(table: Translations, lang: string)
  {
    lang in table
  }

  /**
   * The names every plain JavaScript object inherits from `Object.prototype`;
   * `obj[name]` is a truthy value for each of them, whatever the object's own keys.
   */
  const InheritedNames: set<string> := {
    "constructor", "toString", "toLocaleString", "valueOf", "hasOwnProperty",
    "isPrototypeOf", "propertyIsEnumerable", "__proto__", "__defineGetter__",
    "__defineSetter__", "__lookupGetter__", "__lookupSetter__"
  }

  /** The guard as written, `if (translations[lang])`: an own key or an inherited member. */
  function AcceptedAsWritten(table: Translations, lang: string): (accepted: bool)
    ensures IsKnownLanguage(table, lang) ==> accepted
    ensures accepted && !IsKnownLanguage(table, lang) ==> lang in InheritedNames
  {
    lang in table || lang in InheritedNames
  }

  /** The language `setLanguage(lang)` selects under the guard as written. */
  function SetLanguageAsWritten(table: Translations, current: string, lang: string): (selected: string)
    ensures selected == lang || selected == current
    ensures IsKnownLanguage(table, lang) ==> selected == lang
    ensures selected != current && selected !in table ==> selected in InheritedNames
  {
    if AcceptedAsWritten(table, lang) then lang else current
  }

  /** The guard as written lets "toString" through although it is no language of the table. */
  lemma InheritedNameSelected(table: Translations)
    requires English in table && "toString" !in table
    ensures AcceptedAsWritten(table, "toString")
    ensures SetLanguageAsWritten(table, English, "toString") !in table
  {
  }

  class LanguageProvider {
    const translations: Translations
    const store: Store
    var language: string

    /** The selected language is always a key of the table. */
    ghost predicate Valid()
      reads this
    {
      IsKnownLanguage(translations, language)
    }

    constructor (translations: Translations, store: Store)
      requires English in translations
      ensures Valid()
      ensures this.translations == translations && this.store == store
      ensures language == English
    {
      this.translations := translations;
      this.store := store;
      language := English;
    }

    /** The mount effect: adopts a saved language that is a non-empty key of the table. */
    method Restore()
      requires Valid()
      modifies this
      ensures Valid()
      ensures var saved := Lookup(store.entries, LanguageKey);
              language == (if saved.Some? && saved.value.StoredString? && saved.value.text != ""
                              && IsKnownLanguage(translations, saved.value.text)
                           then saved.value.text else old(language))
    {
      var saved := store.GetItem(LanguageKey);
      if saved.Some? && saved.value.StoredString? && saved.value.text != ""
         && IsKnownLanguage(translations, saved.value.text) {
        language := saved.value.text;
      }
    }

    /** Selects a known language and saves it; an unknown code changes nothing. */
    method SetLanguage(lang: string)
      requires Valid()
      modifies this, store
      ensures Valid()
      ensures IsKnownLanguage(translations, lang) ==>
                language == lang && store.entries == old(store.entries)[LanguageKey := StoredString(lang)]
      ensures !IsKnownLanguage(translations, lang) ==>
                language == old(language) && store.entries == old(store.entries)
    {
      if IsKnownLanguage(translations, lang) {
        language := lang;
        store.SetItem(LanguageKey, StoredString(lang));
      }
    }

    /** `t(key)`: walks the selected locale segment by segment, falling back to English on the first missing one. */
    method T(key: string) returns (r: Entry)
      ensures r == Translate(translations, language, key)
    {
      var keys := Split(key, '.');
      var result := Root(translations, language);
      var i := 0;
      while i < |keys|
        invariant 0 <= i <= |keys|
        invariant 0 < i ==> result != None
        invariant Walk(Root(translations, language), keys) == Walk(result, keys[i..])
      {
        assert keys[i..][1..] == keys[i + 1..];
        result := Child(result, keys[i]);
        i := i + 1;
        if result == None {
          WalkUndefined(keys[i..]);
          var fallback := Root(translations, English);
          var j := 0;
          while j < |keys|
            invariant 0 <= j <= |keys|
            invariant Walk(Root(translations, English), keys) == Walk(fallback, keys[j..])
          {
            assert keys[j..][1..] == keys[j + 1..];
            fallback := Child(fallback, keys[j]);
            j := j + 1;
          }
          return OrKey(fallback, key);
        }
      }
      return OrKey(result, key);
    }
  }
}
