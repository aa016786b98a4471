/** The language context (src/contexts/LanguageContext.tsx): the current language, the
    document direction it implies, and the translation lookup `t`. */
module LanguageContext {
  import opened Wrappers
  import Text

  type Language = string

  /** A translation table: nested objects whose leaves are strings. The concrete tables
      (`src/localization/translations`) are a parameter of the model. */
  datatype Entry = Str(s: string) | Table(entries: map<string, Entry>)

  /** JavaScript truthiness of an entry: only the empty string is falsy. */
  predicate Truthy(e: Entry) {
    e.Str? ==> e.s != ""
  }

  /** `e[k]`: a table's own entry, or on a string the one-character string at the index
      `k` names. */
  function Child(e: Entry, k: string): Option<Entry> {
    match e
    case Table(m) => if k in m then Some(m[k]) else None
    case Str(s) =>
      match Text.CanonicalIndex(k)
      case Some(i) => if i < |s| then Some(Str([s[i]])) else None
      case None => None
  }

  /** One turn of the loop in `t`: descend when both the current value and its child are
      truthy; `None` stands for the `undefined` that makes `t` give up. */
  function Step(cur: Option<Entry>, k: string): Option<Entry> {
    if cur.Some? && Truthy(cur.value) && Child(cur.value, k).Some? && Truthy(Child(cur.value, k).value)
    then Child(cur.value, k)
    else None
  }

  function Resolve(cur: Option<Entry>, keys: seq<string>): Option<Entry>
    decreases |keys|
  {
    if keys == [] then cur else Resolve(Step(cur, keys[0]), keys[1..])
  }

  /** `translations[language]`. */
  function LookupLanguage(translations: map<Language, Entry>, language: Language): Option<Entry> {
    if language in translations then Some(translations[language]) else None
  }

  /** What `t(key)` returns: the string reached by following the dot-separated segments
      of `key`, or `key` itself when a step fails or the end is not a string. */
  function Translate(translations: map<Language, Entry>, language: Language, key: string): (r: string)
    ensures r == key || r != ""
    ensures language !in translations ==> r == key
  {
    var keys := Text.Split(key, '.');
    ResolveTruthy(LookupLanguage(translations, language), keys);
    ResolveFailed(keys[1..]);
    match Resolve(LookupLanguage(translations, language), keys)
    case Some(Str(s)) => s
    case _ => key
  }

  /** After at least one step, the lookup has either given up or reached a truthy value. */
  lemma {:induction false} ResolveTruthy(cur: Option<Entry>, keys: seq<string>)
    requires keys != []
    ensures Resolve(cur, keys).None? || Truthy(Resolve(cur, keys).value)
    decreases |keys|
  {
    if keys[1..] == [] {
      assert Resolve(cur, keys) == Step(cur, keys[0]);
    } else {
      ResolveTruthy(Step(cur, keys[0]), keys[1..]);
    }
  }

  lemma {:induction false} ResolveFailed(keys: seq<string>)
    ensures Resolve(None, keys) == None
    decreases |keys|
  {
    if keys != [] {
      ResolveFailed(keys[1..]);
    }
  }

  lemma {:induction false} ResolveConcat(cur: Option<Entry>, a: seq<string>, b: seq<string>)
    ensures Resolve(cur, a + b) == Resolve(Resolve(cur, a), b)
    decreases |a|
  {
    if a == [] {
      assert a + b == b;
    } else {
      assert (a + b)[0] == a[0] && (a + b)[1..] == a[1..] + b;
      ResolveConcat(Step(cur, a[0]), a[1..], b);
    }
  }

  /** `e` holds the non-empty string `s` under the nested tables named by `segs`. */
  ghost predicate PathTo(e: Entry, segs: seq<string>, s: string)
    decreases |segs|
  {
    |segs| >= 1 && e.Table? && segs[0] in e.entries &&
    if |segs| == 1 then e.entries[segs[0]] == Str(s) && s != ""
    else e.entries[segs[0]].Table? && PathTo(e.entries[segs[0]], segs[1..], s)
  }

  lemma {:induction false} ResolvePath(e: Entry, segs: seq<string>, s: string)
    requires PathTo(e, segs, s)
    ensures Resolve(Some(e), segs) == Some(Str(s))
    decreases |segs|
  {
    if |segs| > 1 {
      ResolvePath(e.entries[segs[0]], segs[1..], s);
    }
  }

  /** On a string value, a segment naming an index gives the one-character string there. */
  lemma ChildIndexesString(s: string, i: nat)
    requires i < |s|
    ensures Child(Str(s), Text.DecimalString(i)) == Some(Str([s[i]]))
  {
    Text.CanonicalIndexOfDecimal(i);
  }

  /** `t("k.i")` with `k` naming a non-empty string and `i` one of its positions gives the
      character at that position. */
  lemma TranslateIndexesString(translations: map<Language, Entry>, language: Language, k: string, s: string, i: nat)
    requires language in translations && translations[language].Table?
    requires k in translations[language].entries && translations[language].entries[k] == Str(s)
    requires '.' !in k && i < |s|
    ensures Translate(translations, language, k + "." + Text.DecimalString(i)) == [s[i]]
  {
    var d := Text.DecimalString(i);
    assert !Text.IsDigit('.');
    assert '.' !in d;
    Text.SplitJoin([k, d], '.');
    assert Text.Join([k, d], '.') == k + "." + d;
    ChildIndexesString(s, i);
    var root := LookupLanguage(translations, language);
    assert [k, d][1..] == [d] && [d][1..] == [];
    assert Resolve(root, [k, d]) == Resolve(Step(root, k), [d]);
    assert Resolve(Step(root, k), [d]) == Step(Step(root, k), d);
  }

  /** A successful lookup: a key whose segments name nested tables ending in a non-empty
      string translates to that string. */
  lemma TranslateFollowsPath(translations: map<Language, Entry>, language: Language, segs: seq<string>, s: string)
    requires language in translations && PathTo(translations[language], segs, s)
    requires forall i :: 0 <= i < |segs| ==> '.' !in segs[i]
    ensures Translate(translations, language, Text.Join(segs, '.')) == s
  {
    Text.SplitJoin(segs, '.');
    ResolvePath(translations[language], segs, s);
  }

  /** A missing segment, or one whose value is the empty string, makes `t` return the key. */
  lemma TranslateMissingSegment(translations: map<Language, Entry>, language: Language, segs: seq<string>, j: nat, m: map<string, Entry>)
    requires j < |segs| && forall i :: 0 <= i < |segs| ==> '.' !in segs[i]
    requires Resolve(LookupLanguage(translations, language), segs[..j]) == Some(Table(m))
    requires segs[j] !in m || m[segs[j]] == Str("")
    ensures Translate(translations, language, Text.Join(segs, '.')) == Text.Join(segs, '.')
  {
    var root := LookupLanguage(translations, language);
    var rest := [segs[j]] + segs[j + 1..];
    assert segs == segs[..j] + rest by {
      assert segs[j..] == rest;
      assert segs == segs[..j] + segs[j..];
    }
    ResolveConcat(root, segs[..j], rest);
    ResolveFailed(segs[j + 1..]);
    assert Resolve(root, segs) == None;
    Text.SplitJoin(segs, '.');
  }

  /** A key that ends on a nested table, or a language with no table, gives the key back. */
  lemma TranslateNonStringFallsBack(translations: map<Language, Entry>, language: Language, key: string)
    requires language !in translations ||
             (Resolve(LookupLanguage(translations, language), Text.Split(key, '.')).Some? &&
              Resolve(LookupLanguage(translations, language), Text.Split(key, '.')).value.Table?)
    ensures Translate(translations, language, key) == key
  {
    var keys := Text.Split(key, '.');
    if language !in translations {
      ResolveFailed(keys[1..]);
    }
  }

  /** The language stored under `language`, or Arabic when nothing (or "") is stored. */
  function InitialLanguage(saved: Option<string>): (l: Language)
    ensures saved.Some? && saved.value != "" ==> l == saved.value
    ensures saved.None? || saved.value == "" ==> l == "ar"
  {
    if saved.Some? && saved.value != "" then saved.value else "ar"
  }

  /** The document direction for a language: right-to-left exactly for Arabic. */
  function Direction(l: Language): (d: string)
    ensures d == "rtl" <==> l == "ar"
    ensures d == "rtl" || d == "ltr"
  {
    if l == "ar" then "rtl" else "ltr"
  }

  /** The provider: the language state, its storage entry and the document's `dir` and
      `lang` attributes. */
  class LanguageProvider {
    const translations: map<Language, Entry>
    var language: Language
    var stored: Option<string>
    var dir: string
    var lang: string

    /** The lazy `useState` initialiser and the mount effect that sets `dir` and `lang`. */
    constructor (translations: map<Language, Entry>, stored: Option<string>)
      ensures this.translations == translations && this.stored == stored
      ensures language == InitialLanguage(stored)
      ensures dir == Direction(language) && lang == language
    {
      this.translations := translations;
      this.stored := stored;
      var initial := InitialLanguage(stored);
      language := initial;
      dir := Direction(initial);
      lang := initial;
    }

    /** `handleLanguageChange`. */
    method ChangeLanguage(newLanguage: Language)
      modifies this
      ensures language == newLanguage && stored == Some(newLanguage)
      ensures dir == Direction(newLanguage) && lang == newLanguage
    {
      language := newLanguage;
      stored := Some(newLanguage);
      dir := Direction(newLanguage);
      lang := newLanguage;
    }

    /** `t(key)`: the loop over the key's segments with its early return. */
    method T(key: string) returns (r: string)
      ensures r == Translate(translations, language, key)
    {
      var keys := Text.Split(key, '.');
      var translation := LookupLanguage(translations, language);
      var i := 0;
      while i < |keys|
        invariant 0 <= i <= |keys|
        invariant Resolve(translation, keys[i..]) == Resolve(LookupLanguage(translations, language), keys)
        invariant i > 0 ==> translation.Some?
      {
        var k := keys[i];
        if translation.Some? && Truthy(translation.value) && Child(translation.value, k).Some?
           && Truthy(Child(translation.value, k).value) {
          translation := Child(translation.value, k);
        } else {
          ResolveFailed(keys[i + 1..]);
          return key;
        }
        i := i + 1;
      }
      r := if translation.Some? && translation.value.Str? then translation.value.s else key;
    }
  }
}
