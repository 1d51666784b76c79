/** The translation helpers of the language provider: dotted-key lookup in
    a nested translation table with the key itself as the fallback, the
    choice of the active table with English as the fallback, adoption of a
    saved preference, and switching language. The translation tables are
    inputs; browser storage is the `saved` field of `LanguageState`. */
module Language {

  import opened Wrappers
  import opened Strings

  /** A value in a translation table, as parsed from JSON. Arrays are not modelled. */
  datatype TValue =
    | Text(s: string)
    | Number(n: int)
    | Flag(b: bool)
    | Null
    | Table(entries: map<string, TValue>)

  /** JavaScript truthiness of a table value. */
  predicate Truthy(v: TValue)
  {
    match v
    case Text(s) => s != []
    case Number(n) => n != 0
    case Flag(b) => b
    case Null => false
    case Table(_) => true
  }

  /** `typeof v === "object"`, which also holds of `null`. */
  predicate IsObjectType(v: TValue)
  {
    v.Table? || v.Null?
  }

  /** The value reached by following `path` through nested tables, if every
      step finds its key in a table. */
  function Resolve(v: TValue, path: seq<string>): (r: Option<TValue>)
    ensures path == [] ==> r == Some(v)
    ensures path != [] && r.Some? ==> v.Table? && path[0] in v.entries
    decreases |path|
  {
    if path == [] then Some(v)
    else match v
      case Table(entries) =>
        if path[0] in entries then Resolve(entries[path[0]], path[1..]) else None
      case _ => None
  }

  /** Resolving one more key extends the resolution of the path so far. */
  lemma {:induction false} ResolveSnoc(v: TValue, path: seq<string>, k: string)
    ensures Resolve(v, path + [k]) ==
      match Resolve(v, path)
      case None => None
      case Some(w) => if w.Table? && k in w.entries then Some(w.entries[k]) else None
    decreases |path|
  {
    if path != [] {
      assert (path + [k])[0] == path[0];
      assert (path + [k])[1..] == path[1..] + [k];
      match v
      case Table(entries) =>
        if path[0] in entries {
          ResolveSnoc(entries[path[0]], path[1..], k);
        }
      case _ =>
    } else {
      assert [k][1..] == [];
    }
  }

  /** `t(key)`: split the key at dots and walk the table; return the value
      reached if it is truthy, and the key itself otherwise (a missing
      segment, a non-object on the way, or a falsy value at the end). */
  method Translate(translations: TValue, key: string) returns (r: TValue)
    ensures match Resolve(translations, Split(key, '.'))
            case Some(v) => r == (if Truthy(v) then v else Text(key))
            case None => r == Text(key)
  {
    var keys := Split(key, '.');
    var value := translations;
    for i := 0 to |keys|
      invariant Resolve(translations, keys[..i]) == Some(value)
    {
      var k := keys[i];
      ResolveSnoc(translations, keys[..i], k);
      assert keys[..i + 1] == keys[..i] + [k];
      if Truthy(value) && IsObjectType(value) && value.Table? && k in value.entries {
        value := value.entries[k];
      } else {
        ResolveNonePersists(translations, keys[..i + 1], keys[i + 1..]);
        assert keys[..i + 1] + keys[i + 1..] == keys;
        return Text(key);
      }
    }
    assert keys[..|keys|] == keys;
    if Truthy(value) {
      r := value;
    } else {
      r := Text(key);
    }
  }

  /** Once a path fails to resolve, no longer path resolves. */
  lemma {:induction false} ResolveNonePersists(v: TValue, path: seq<string>, more: seq<string>)
    requires Resolve(v, path).None?
    ensures Resolve(v, path + more).None?
    decreases |path|
  {
    assert path != [];
    assert (path + more)[0] == path[0] && (path + more)[1..] == path[1..] + more;
    match v
    case Table(entries) =>
      if path[0] in entries {
        ResolveNonePersists(entries[path[0]], path[1..], more);
      }
    case _ =>
  }

  /** The bundled translation tables. */
  datatype Translations = Translations(en: TValue, hi: TValue)

  /** `allTranslations[code]` for the codes that have a table. */
  function TableFor(all: Translations, code: string): Option<TValue>
  {
    if code == "en" then Some(all.en)
    else if code == "hi" then Some(all.hi)
    else None
  }

  /** `loadTranslations`: the table for the current language if there is a
      truthy one, otherwise the English table. */
  function ActiveTable(all: Translations, code: string): (t: TValue)
    ensures t == all.en || (code == "hi" && t == all.hi)
    ensures TableFor(all, code).None? ==> t == all.en
    ensures code == "hi" && Truthy(all.hi) ==> t == all.hi
    ensures !(code == "hi" && Truthy(all.hi)) ==> t == all.en
  {
    match TableFor(all, code)
    case Some(selected) => if Truthy(selected) then selected else all.en
    case None => all.en
  }

  /** The provider's language state: the current code and the saved preference. */
  datatype LanguageState = LanguageState(current: string, saved: Option<string>)

  /** The language on start-up: `"en"`, replaced by the saved preference only
      when that is non-empty and names a truthy table. */
  function InitialLanguage(all: Translations, saved: Option<string>): (code: string)
    ensures code == "en" || (saved == Some(code) && TableFor(all, code).Some?)
    ensures saved.Some? && TableFor(all, saved.value).Some? && Truthy(TableFor(all, saved.value).value)
            ==> code == saved.value
    ensures code != "en" ==> saved == Some(code) && TableFor(all, code).Some? && Truthy(TableFor(all, code).value)
  {
    match saved
    case Some(s) =>
      if s != [] && TableFor(all, s).Some? && Truthy(TableFor(all, s).value) then s else "en"
    case None => "en"
  }

  /** `changeLanguage(code)`: the current language becomes `code`, and so
      does the saved preference, whether or not a table exists for it. */
  function ChangeLanguage(state: LanguageState, code: string): (next: LanguageState)
    ensures next.current == code && next.saved == Some(code)
  {
    LanguageState(code, Some(code))
  }

  /** After a language change, a reload shows the same table as before the
      reload: an unknown code falls back to English both ways. */
  lemma ChangeSurvivesReload(all: Translations, state: LanguageState, code: string)
    ensures var next := ChangeLanguage(state, code);
            ActiveTable(all, InitialLanguage(all, next.saved)) == ActiveTable(all, next.current)
    ensures TableFor(all, code).None? ==> ActiveTable(all, ChangeLanguage(state, code).current) == all.en
  {
  }
}
