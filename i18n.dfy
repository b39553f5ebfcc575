/**
 * The interface strings (i18n.py): `t(key, lang)` looks the key up in the translation table, falling
 * back to English and then to the key itself. The table's texts are kept abstract: a table is a
 * parameter, and `Complete` says what the shipped table satisfies.
 */
module I18n {

  /** `TRANSLATIONS`: for each key, its text per language code. */
  type Translations = map<string, map<string, string>>

  /** `TRANSLATIONS.get(key, {})` */
  function Entry(table: Translations, key: string): map<string, string>
  {
    if key in table then table[key] else map[]
  }

  /** `t(key, lang)`: `entry.get(lang, entry.get("en", key))`. */
  function T(table: Translations, key: string, lang: string): (text: string)
    ensures key in table && lang in table[key] ==> text == table[key][lang]
    ensures key in table && lang !in table[key] && "en" in table[key] ==> text == table[key]["en"]
    ensures key !in table ==> text == key
  {
    var entry := Entry(table, key);
    if lang in entry then entry[lang] else if "en" in entry then entry["en"] else key
  }

  /** Every key of the table has a Japanese and an English text, as every entry of the shipped table does. */
  predicate Complete(table: Translations)
  {
    forall key :: key in table ==> "ja" in table[key] && "en" in table[key]
  }

  /** Whatever the key and language, `t` gives a text of the key's entry or, failing that, the key. */
  lemma TextSource(table: Translations, key: string, lang: string)
    ensures T(table, key, lang) == key || exists l :: l in Entry(table, key) && Entry(table, key)[l] == T(table, key, lang)
  {
  }

  /**
   * With a complete table, a known key never falls through to the key itself: it gives the text in the
   * language asked for, or the English one; Japanese and English are always served in their own language.
   */
  lemma CompleteTable(table: Translations, key: string, lang: string)
    requires Complete(table) && key in table
    ensures T(table, key, lang) == if lang in table[key] then table[key][lang] else table[key]["en"]
    ensures T(table, key, "ja") == table[key]["ja"] && T(table, key, "en") == table[key]["en"]
  {
  }

  /** A one-entry excerpt of the shipped table. */
  const APP_TITLE: Translations := map["app_title" := map["ja" := "StemScore - 楽譜生成AI", "en" := "StemScore - AI Score Generator"]]

  /** The title in Japanese, in a language the table lacks (English), and an unknown key. */
  lemma AppTitle()
    ensures Complete(APP_TITLE)
    ensures T(APP_TITLE, "app_title", "ja") == "StemScore - 楽譜生成AI"
    ensures T(APP_TITLE, "app_title", "fr") == "StemScore - AI Score Generator"
    ensures T(APP_TITLE, "no_such_key", "ja") == "no_such_key"
  {
    assert "fr" != "ja" && "fr" != "en";
    assert "no_such_key" != "app_title";
  }
}
