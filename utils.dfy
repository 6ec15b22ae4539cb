/** utils.py: the per-chat language registry, translation lookup with its
    fallbacks, and the recursive emptiness test for nested lists. */
module Utils {

  /** Telegram's chat identifier. */
  type ChatId = int

  const DEFAULT_LANGUAGE := "en"

  /** The translation tables, language code to (key to text). `translate` reads
      `translations['en']` on every call, so the English table is always there. */
  type Tables = t: map<string, map<string, string>> | DEFAULT_LANGUAGE in t
    witness map[DEFAULT_LANGUAGE := map[]]

  /** The language a chat uses: the one stored for it, else English. */
  function LanguageIn(languages: map<ChatId, string>, chat: ChatId): (lang: string)
    ensures chat in languages ==> lang == languages[chat]
    ensures chat !in languages ==> lang == DEFAULT_LANGUAGE
  {
    if chat in languages then languages[chat] else DEFAULT_LANGUAGE
  }

  /** The text for `key` in language `lang`: the language's own table when there is
      one, the English table otherwise, and the empty text when the key is missing. */
  function TranslateIn(tables: Tables, lang: string, key: string): (text: string)
    ensures lang in tables && key in tables[lang] ==> text == tables[lang][key]
    ensures lang in tables && key !in tables[lang] ==> text == ""
    ensures lang !in tables && key in tables[DEFAULT_LANGUAGE] ==> text == tables[DEFAULT_LANGUAGE][key]
    ensures lang !in tables && key !in tables[DEFAULT_LANGUAGE] ==> text == ""
  {
    var table := if lang in tables then tables[lang] else tables[DEFAULT_LANGUAGE];
    if key in table then table[key] else ""
  }

  /** `translate` with the language fixed: what the checklist code calls with one chat's id. */
  function Translator(tables: Tables, lang: string): string -> string
  {
    key => TranslateIn(tables, lang, key)
  }

  /** After a language is stored for a chat, that chat reads it back and no other chat
      sees a change. */
  lemma LanguageAfterSet(languages: map<ChatId, string>, chat: ChatId, lang: string, other: ChatId)
    ensures LanguageIn(languages[chat := lang], chat) == lang
    ensures other != chat ==> LanguageIn(languages[chat := lang], other) == LanguageIn(languages, other)
  {
  }

  /** The process-wide `user_languages` dictionary. */
  class Languages {
    var userLanguages: map<ChatId, string>

    constructor ()
      ensures userLanguages == map[]
    {
      userLanguages := map[];
    }

    /** `get_language(chat_id)`. */
    function GetLanguage(chat: ChatId): string
      reads this
    {
      LanguageIn(userLanguages, chat)
    }

    /** `translate(chat_id, key)`. */
    function Translate(tables: Tables, chat: ChatId, key: string): string
      reads this
    {
      TranslateIn(tables, GetLanguage(chat), key)
    }

    /** `set_language(chat_id, language)`. */
    method SetLanguage(chat: ChatId, language: string)
      modifies this
      ensures userLanguages == old(userLanguages)[chat := language]
      ensures GetLanguage(chat) == language
      ensures forall c :: c != chat ==> GetLanguage(c) == old(GetLanguage(c))
    {
      userLanguages := userLanguages[chat := language];
    }
  }

  /** A Python value as `is_nested_empty` sees it: a list, or anything else. */
  datatype PyValue = PyList(elems: seq<PyValue>) | PyScalar

  /** `is_nested_empty(lst)`: the empty list is nested-empty; otherwise every element must
      be a list that is itself nested-empty (the loop returns False at the first one that is not). */
  function IsNestedEmpty(lst: seq<PyValue>): (r: bool)
    ensures lst == [] ==> r
    ensures (exists i :: 0 <= i < |lst| && lst[i].PyScalar?) ==> !r
    ensures r ==> forall i :: 0 <= i < |lst| ==> lst[i].PyList?
    decreases lst
  {
    if lst == [] then true
    else
      assert lst[0] in lst;
      lst[0].PyList? && IsNestedEmpty(lst[0].elems) && IsNestedEmpty(lst[1..])
  }

  /** How many non-list values occur in `lst` at any depth: the independent reading of
      "nested-empty" as "no value anywhere". */
  function ScalarCount(lst: seq<PyValue>): nat
    decreases lst
  {
    if lst == [] then 0
    else
      assert lst[0] in lst;
      (match lst[0] case PyScalar => 1 case PyList(elems) => ScalarCount(elems)) + ScalarCount(lst[1..])
  }

  /** A list is nested-empty exactly when no non-list value occurs in it at any depth. */
  lemma {:induction false} NestedEmptyIffNoScalar(lst: seq<PyValue>)
    ensures IsNestedEmpty(lst) <==> ScalarCount(lst) == 0
    decreases lst
  {
    if lst != [] {
      assert lst[0] in lst;
      if lst[0].PyList? {
        NestedEmptyIffNoScalar(lst[0].elems);
      }
      NestedEmptyIffNoScalar(lst[1..]);
    }
  }

  /** For a non-empty list of lists, nested-emptiness is that of every element. */
  lemma {:induction false} NestedEmptyOfLists(lst: seq<PyValue>)
    requires forall i :: 0 <= i < |lst| ==> lst[i].PyList?
    ensures IsNestedEmpty(lst) <==> forall i :: 0 <= i < |lst| ==> IsNestedEmpty(lst[i].elems)
  {
    if lst != [] {
      NestedEmptyOfLists(lst[1..]);
      assert forall i :: 1 <= i < |lst| ==> lst[i] == lst[1..][i - 1];
    }
  }

  /** A list of records (no element is a list) is nested-empty only when it is empty. */
  lemma NestedEmptyOfRecords(lst: seq<PyValue>)
    requires forall i :: 0 <= i < |lst| ==> lst[i].PyScalar?
    ensures IsNestedEmpty(lst) <==> lst == []
  {
    if lst != [] {
      assert lst[0].PyScalar?;
    }
  }
}
