/** The translation lookup `t` of the language provider: a per-language
    table lookup that falls back to the key, followed by `{{name}}`
    placeholder substitution, one option after another, each replacing only
    the first occurrence of its placeholder. */
module Localization {
  import opened Wrappers
  import opened JsStrings

  datatype Language = Vi | En

  /** One language's table of translated strings. */
  type Table = map<string, string>

  /** The placeholder an option named `name` fills. */
  function Placeholder(name: string): (p: string)
    ensures |p| == |name| + 4 && p[..2] == "{{" && p[|p| - 2..] == "}}"
    ensures p[2..|p| - 2] == name
  {
    "{{" + name + "}}"
  }

  /** `langTranslations[key] || key`: a missing key and an empty translation
      both fall back to the key itself. */
  function Template(table: Table, key: string): (r: string)
    ensures r == key <==> key !in table || table[key] == "" || table[key] == key
    ensures r != key ==> key in table && r == table[key]
  {
    if key in table && table[key] != "" then table[key] else key
  }

  /** The `forEach` over the option keys, in order: each option replaces the
      first occurrence of its placeholder in the text produced so far. */
  function SubstituteAll(text: string, options: seq<(string, string)>): string
    decreases |options|
  {
    if options == [] then text
    else
      var last := options[|options| - 1];
      ReplaceFirst(SubstituteAll(text, options[..|options| - 1]), Placeholder(last.0), last.1)
  }

  /** `t(key, options)`: the key itself when no table is loaded for the
      current language, otherwise the template with the options substituted. */
  function Translate(tables: map<Language, Table>, lang: Language, key: string,
                     options: seq<(string, string)>): string
  {
    if lang !in tables then key else SubstituteAll(Template(tables[lang], key), options)
  }

  /** Before the tables are loaded every lookup returns its key, options or not. */
  lemma NotLoadedGivesKey(tables: map<Language, Table>, lang: Language, key: string,
                          options: seq<(string, string)>)
    requires lang !in tables
    ensures Translate(tables, lang, key, options) == key
  {
  }

  /** Without options the result is the looked-up template, or the key when
      the key is missing or translated to the empty string. */
  lemma NoOptionsGivesTemplate(tables: map<Language, Table>, lang: Language, key: string)
    requires lang in tables
    ensures Translate(tables, lang, key, []) ==
      if key in tables[lang] && tables[lang][key] != "" then tables[lang][key] else key
  {
  }

  /** Options whose placeholders do not occur leave the text as it is. */
  lemma {:induction false} AbsentPlaceholdersKeepText(text: string, options: seq<(string, string)>)
    requires forall i, j :: 0 <= i < |options| ==> !OccursAt(text, Placeholder(options[i].0), j)
    ensures SubstituteAll(text, options) == text
    decreases |options|
  {
    if options != [] {
      var init := options[..|options| - 1];
      assert forall i :: 0 <= i < |init| ==> init[i] == options[i];
      AbsentPlaceholdersKeepText(text, init);
      var pat := Placeholder(options[|options| - 1].0);
      assert forall j :: !OccursAt(text, pat, j);
    }
  }

  /** One option is one `replace`. */
  lemma SubstituteOne(text: string, o: (string, string))
    ensures SubstituteAll(text, [o]) == ReplaceFirst(text, Placeholder(o.0), o.1)
  {
    assert [o][..0] == [];
  }

  /** Two options are two `replace`s, the first option's first. */
  lemma SubstituteTwo(text: string, o1: (string, string), o2: (string, string))
    ensures SubstituteAll(text, [o1, o2])
      == ReplaceFirst(ReplaceFirst(text, Placeholder(o1.0), o1.1), Placeholder(o2.0), o2.1)
  {
    assert [o1, o2][..1] == [o1];
    SubstituteOne(text, o1);
  }

  lemma IndexAtStart(s: string, pat: string)
    requires OccursAt(s, pat, 0)
    ensures IndexOf(s, pat) == Some(0)
  {
  }

  /** An option fills the first occurrence of its placeholder only: a second
      occurrence stays in the text. */
  lemma FirstOccurrenceOnly()
    ensures SubstituteAll("{{n}}{{n}}", [("n", "x")]) == "x{{n}}"
  {
    var s, pat := "{{n}}{{n}}", Placeholder("n");
    assert pat == "{{n}}";
    assert s[..5] == pat && s[5..] == pat;
    IndexAtStart(s, pat);
    ReplaceVerbatim(s, pat, "x");
    SubstituteOne(s, ("n", "x"));
  }

  /** Options are applied in order, so a later option also fills a placeholder
      that an earlier option inserted; in the other order it does not. */
  lemma OptionsApplyInOrder()
    ensures SubstituteAll("{{a}}", [("a", "{{b}}"), ("b", "X")]) == "X"
    ensures SubstituteAll("{{a}}", [("b", "X"), ("a", "{{b}}")]) == "{{b}}"
  {
    LaterFillsInserted();
    EarlierMissesInserted();
  }

  lemma LaterFillsInserted()
    ensures SubstituteAll("{{a}}", [("a", "{{b}}"), ("b", "X")]) == "X"
  {
    var pa, pb := Placeholder("a"), Placeholder("b");
    assert pa == "{{a}}" && pb == "{{b}}";
    SubstituteTwo(pa, ("a", pb), ("b", "X"));
    IndexAtStart(pa, pa);
    ReplaceVerbatim(pa, pa, pb);
    assert ReplaceFirst(pa, pa, pb) == pb;
    IndexAtStart(pb, pb);
    ReplaceVerbatim(pb, pb, "X");
  }

  lemma EarlierMissesInserted()
    ensures SubstituteAll("{{a}}", [("b", "X"), ("a", "{{b}}")]) == "{{b}}"
  {
    var pa, pb := Placeholder("a"), Placeholder("b");
    assert pa == "{{a}}" && pb == "{{b}}";
    SubstituteTwo(pa, ("b", "X"), ("a", pb));
    forall j: nat
      ensures !OccursAt(pa, pb, j)
    {
      if j + |pb| <= |pa| {
        assert pa[j..j + |pb|][2] == 'a' != pb[2];
      }
    }
    ReplaceVerbatim(pa, pb, "X");
    assert ReplaceFirst(pa, pb, "X") == pa;
    IndexAtStart(pa, pa);
    ReplaceVerbatim(pa, pa, pb);
  }

  /** The tables set when loading the locale files fails: both empty. */
  function LoadFailedTables(): (t: map<Language, Table>)
    ensures Vi in t && En in t && t[Vi] == map[] && t[En] == map[]
  {
    map[Vi := map[], En := map[]]
  }

  /** After a failed load every key is its own template; its placeholders are
      still substituted. */
  lemma LoadFailureFallsBackToKey(lang: Language, key: string, options: seq<(string, string)>)
    ensures Translate(LoadFailedTables(), lang, key, options) == SubstituteAll(key, options)
    ensures Translate(LoadFailedTables(), lang, key, []) == key
  {
  }

  /** The provider's held state: the current language and the loaded tables
      (a language without an entry has not been loaded). */
  class LanguageProvider {
    var language: Language
    var translations: map<Language, Table>

    constructor ()
      ensures language == Vi && translations == map[]
    {
      language := Vi;
      translations := map[];
    }

    method SetLanguage(l: Language)
      modifies this`language
      ensures language == l
    {
      language := l;
    }

    /** Both locale files were fetched and parsed. */
    method LoadSucceeded(vi: Table, en: Table)
      modifies this`translations
      ensures translations == map[Vi := vi, En := en]
    {
      translations := map[Vi := vi, En := en];
    }

    /** Fetching or parsing a locale file failed. */
    method LoadFailed()
      modifies this`translations
      ensures translations == LoadFailedTables()
    {
      translations := LoadFailedTables();
    }

    /** `t`: the lookup, then the substitution loop. */
    method T(key: string, options: seq<(string, string)>) returns (r: string)
      ensures r == Translate(translations, language, key, options)
    {
      if language !in translations {
        return key;
      }
      var template := Template(translations[language], key);
      var translation := template;
      var i := 0;
      while i < |options|
        invariant 0 <= i <= |options|
        invariant translation == SubstituteAll(template, options[..i])
      {
        assert options[..i + 1][..i] == options[..i];
        translation := ReplaceFirst(translation, Placeholder(options[i].0), options[i].1);
        i := i + 1;
      }
      assert options[..i] == options;
      r := translation;
    }
  }
}
