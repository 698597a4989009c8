/** Translation lookup with dotted keys and `{param}` interpolation, and the locale state of
    the i18n provider (lib/i18n/I18nProvider.tsx, lib/i18n/config.ts). */
module I18n {
  import opened Wrappers
  import opened Text

  /** `locales = ['en', 'de']`. */
  predicate IsLocale(s: string) {
    s == "en" || s == "de"
  }

  type Locale = s: string | IsLocale(s) witness "en"

  const DefaultLocale: Locale := "en"
  const DefaultStorageKey := "saas-locale"

  /** A translation dictionary: strings at the leaves, nested objects above them. */
  datatype Node = Text(text: string) | Table(entries: map<string, Node>)

  /** The value a key path reaches, descending only through objects. */
  function Find(node: Node, keys: seq<string>): (r: Option<Node>)
    ensures |keys| == 0 ==> r == Some(node)
    ensures |keys| > 0 && node.Text? ==> r.None?
    ensures |keys| > 0 && node.Table? && keys[0] !in node.entries ==> r.None?
  {
    if |keys| == 0 then Some(node)
    else match node
      case Text(_) => None
      case Table(entries) => if keys[0] in entries then Find(entries[keys[0]], keys[1..]) else None
  }

  /** `\w`. */
  predicate IsWordChar(c: char) {
    'a' <= c <= 'z' || 'A' <= c <= 'Z' || '0' <= c <= '9' || c == '_'
  }

  /** The longest run of word characters at the front of `s`. */
  function WordRun(s: string): (w: string)
    ensures w <= s
    ensures forall i :: 0 <= i < |w| ==> IsWordChar(w[i])
    ensures |w| < |s| ==> !IsWordChar(s[|w|])
  {
    if |s| > 0 && IsWordChar(s[0]) then [s[0]] + WordRun(s[1..]) else ""
  }

  /** The parameter name of a `{word}` placeholder at the front of `s`, if there is one. */
  function Placeholder(s: string): (name: Option<string>)
    ensures name.Some? ==> |name.value| > 0 && |name.value| + 2 <= |s| && s[..|name.value| + 2] == "{" + name.value + "}"
    ensures name.Some? ==> forall i :: 0 <= i < |name.value| ==> IsWordChar(name.value[i])
  {
    if |s| > 0 && s[0] == '{' then
      var w := WordRun(s[1..]);
      if |w| > 0 && |w| + 1 < |s| && s[|w| + 1] == '}' then
        assert s[..|w| + 2] == [s[0]] + s[1..|w| + 1] + [s[|w| + 1]];
        Some(w)
      else None
    else None
  }

  /** `value.replace(/\{(\w+)\}/g, ...)`: each placeholder, left to right, becomes its parameter,
      or stays as written when the parameter is missing. */
  function Interpolate(s: string, params: map<string, string>): (r: string)
    ensures '{' !in s ==> r == s
    decreases |s|
  {
    if |s| == 0 then ""
    else match Placeholder(s)
      case Some(name) =>
        assert s[0] == s[..|name| + 2][0] == '{';
        (if name in params then params[name] else "{" + name + "}") + Interpolate(s[|name| + 2..], params)
      case None =>
        assert s == [s[0]] + s[1..];
        [s[0]] + Interpolate(s[1..], params)
  }

  /** Placeholders without parameters are left literally, so no parameters change nothing. */
  lemma {:induction false} MissingParamsLeftLiterally(s: string)
    ensures Interpolate(s, map[]) == s
  {
    if |s| > 0 {
      match Placeholder(s)
      case Some(name) =>
        MissingParamsLeftLiterally(s[|name| + 2..]);
        assert s == s[..|name| + 2] + s[|name| + 2..];
      case None =>
        MissingParamsLeftLiterally(s[1..]);
        assert s == [s[0]] + s[1..];
    }
  }

  /** A lone placeholder becomes its parameter. */
  lemma SinglePlaceholder(name: string, params: map<string, string>)
    requires |name| > 0 && forall i :: 0 <= i < |name| ==> IsWordChar(name[i])
    requires name in params
    ensures Interpolate("{" + name + "}", params) == params[name]
  {
    var s := "{" + name + "}";
    assert s[1..] == name + "}";
    WordRunOfWord(name, "}");
    assert Placeholder(s) == Some(name);
    assert s[|name| + 2..] == "";
  }

  /** A placeholder after brace-free text is replaced by its parameter, or kept as written when
      the parameter is absent, and interpolation goes on after it. */
  lemma PlaceholderInText(lit: string, name: string, rest: string, params: map<string, string>)
    requires '{' !in lit
    requires |name| > 0 && forall i :: 0 <= i < |name| ==> IsWordChar(name[i])
    ensures Interpolate(lit + "{" + name + "}" + rest, params) ==
      lit + (if name in params then params[name] else "{" + name + "}") + Interpolate(rest, params)
  {
    var x := "{" + name + "}" + rest;
    var v := if name in params then params[name] else "{" + name + "}";
    var w := Interpolate(rest, params);
    assert Interpolate(lit + x, params) == lit + (v + w) by {
      PlaceholderAtFront(name, rest, params);
      LiteralBeforeText(lit, x, params);
    }
    assert lit + "{" + name + "}" + rest == lit + x by {
      Regroup(lit, "{" + name, "}", rest);
    }
    assert lit + (v + w) == lit + v + w;
  }

  lemma Regroup(a: string, b: string, c: string, d: string)
    ensures a + b + c + d == a + (b + c + d)
  {
  }

  /** Brace-free text in front passes through unchanged. */
  lemma {:induction false} LiteralBeforeText(lit: string, x: string, params: map<string, string>)
    requires '{' !in lit
    requires |x| > 0 && x[0] == '{'
    ensures Interpolate(lit + x, params) == lit + Interpolate(x, params)
    decreases |lit|
  {
    if |lit| > 0 {
      assert (lit + x)[0] == lit[0];
      assert (lit + x)[1..] == lit[1..] + x;
      LiteralAtFront(lit + x, params);
      assert '{' !in lit[1..] by {
        forall c | c in lit[1..] ensures c != '{' { assert c in lit; }
      }
      LiteralBeforeText(lit[1..], x, params);
      ConsThenConcat(lit, Interpolate(x, params));
    } else {
      assert lit + x == x;
    }
  }

  lemma PlaceholderAtFront(name: string, rest: string, params: map<string, string>)
    requires |name| > 0 && forall i :: 0 <= i < |name| ==> IsWordChar(name[i])
    ensures Interpolate("{" + name + "}" + rest, params) ==
      (if name in params then params[name] else "{" + name + "}") + Interpolate(rest, params)
  {
    var x := "{" + name + "}" + rest;
    assert x[1..] == name + ("}" + rest);
    WordRunOfWord(name, "}" + rest);
    assert x[|name| + 1] == '}';
    assert Placeholder(x) == Some(name);
    assert x[|name| + 2..] == rest;
  }

  lemma ConsThenConcat(a: string, b: string)
    requires |a| > 0
    ensures [a[0]] + (a[1..] + b) == a + b
  {
    assert a == [a[0]] + a[1..];
  }

  lemma LiteralAtFront(s: string, params: map<string, string>)
    requires |s| > 0 && s[0] != '{'
    ensures Interpolate(s, params) == [s[0]] + Interpolate(s[1..], params)
  {
  }

  lemma {:induction false} WordRunOfWord(w: string, rest: string)
    requires forall i :: 0 <= i < |w| ==> IsWordChar(w[i])
    requires |rest| > 0 && !IsWordChar(rest[0])
    ensures WordRun(w + rest) == w
  {
    if |w| > 0 {
      assert (w + rest)[1..] == w[1..] + rest;
      WordRunOfWord(w[1..], rest);
    }
  }

  /** The result of `t(key, params)` in a dictionary. */
  function Translate(root: Node, key: string, params: Option<map<string, string>>): (r: string)
    ensures Find(root, Split(key, '.')).None? ==> r == key
    ensures Find(root, Split(key, '.')).Some? && !Find(root, Split(key, '.')).value.Text? ==> r == key
    ensures Find(root, Split(key, '.')).Some? && Find(root, Split(key, '.')).value.Text? ==>
      r == if params.Some? then Interpolate(Find(root, Split(key, '.')).value.text, params.value)
           else Find(root, Split(key, '.')).value.text
  {
    match Find(root, Split(key, '.'))
    case Some(Text(value)) => if params.Some? then Interpolate(value, params.value) else value
    case _ => key
  }

  /** Without parameters, a stored string is returned as it is. */
  lemma StoredStringReturned(root: Node, key: string, value: string)
    requires Find(root, Split(key, '.')) == Some(Text(value))
    ensures Translate(root, key, None) == value
    ensures Translate(root, key, Some(map[])) == value
  {
    MissingParamsLeftLiterally(value);
  }

  /** A key with no dot looks up one entry of the top-level object. */
  lemma {:induction false} TopLevelKey(entries: map<string, Node>, key: string)
    requires '.' !in key
    ensures Find(Table(entries), Split(key, '.')) == if key in entries then Some(entries[key]) else None
  {
    SplitNoSeparator(key, '.');
    assert Split(key, '.') == [key];
    assert Split(key, '.')[1..] == [];
  }

  /** `translations: Record<Locale, Translations>`. */
  datatype Dictionaries = Dictionaries(en: Node, de: Node) {
    function For(locale: Locale): Node {
      if locale == "en" then en else de
    }
  }

  /** The locale chosen on mount: a valid stored value, else a valid browser language (the part
      before '-'), else the current one (`initialLocale || 'en'`). */
  function MountedLocale(current: Locale, stored: Option<string>, browserLanguage: string): (l: Locale)
    ensures stored.Some? && IsLocale(stored.value) ==> l == stored.value
    ensures !(stored.Some? && IsLocale(stored.value)) && IsLocale(Split(browserLanguage, '-')[0]) ==>
      l == Split(browserLanguage, '-')[0]
    ensures !(stored.Some? && IsLocale(stored.value)) && !IsLocale(Split(browserLanguage, '-')[0]) ==> l == current
  {
    if stored.Some? && IsLocale(stored.value) then stored.value
    else
      var browserLang := Split(browserLanguage, '-')[0];
      if IsLocale(browserLang) then browserLang else current
  }

  /** A regional browser tag picks its language. */
  lemma RegionIgnored()
    ensures MountedLocale("en", None, "de-AT") == "de"
    ensures MountedLocale("de", Some("fr"), "en-US") == "en"
    ensures MountedLocale("de", None, "fr-FR") == "de"
  {
    assert "de-AT" == "de" + ['-'] + "AT";
    FirstPiece("de", "AT", '-');
    assert "en-US" == "en" + ['-'] + "US";
    FirstPiece("en", "US", '-');
    assert "fr-FR" == "fr" + ['-'] + "FR";
    FirstPiece("fr", "FR", '-');
  }

  /** The provider's state: the locale, the browser's local storage and the document's `lang`. */
  class Provider {
    var locale: Locale
    var storage: map<string, string>
    var documentLang: Option<string>
    var mounted: bool
    const storageKey: string
    const dictionaries: Dictionaries

    /** The first render: `initialLocale || defaultLocale`, not yet mounted. */
    constructor (initialLocale: Option<Locale>, storageKey: Option<string>, storage: map<string, string>,
                 dictionaries: Dictionaries)
      ensures locale == initialLocale.GetOr(DefaultLocale) && !mounted
      ensures this.storageKey == storageKey.GetOr(DefaultStorageKey)
      ensures this.storage == storage && this.dictionaries == dictionaries && documentLang.None?
    {
      locale := initialLocale.GetOr(DefaultLocale);
      this.storage := storage;
      documentLang := None;
      mounted := false;
      this.storageKey := storageKey.GetOr(DefaultStorageKey);
      this.dictionaries := dictionaries;
    }

    function Stored(): Option<string>
      reads this
    {
      if storageKey in storage then Some(storage[storageKey]) else None
    }

    /** The mount effects (lines 33-45, 86-90). */
    method Mount(browserLanguage: string)
      modifies this
      ensures locale == MountedLocale(old(locale), old(Stored()), browserLanguage)
      ensures mounted && documentLang == Some(locale) && storage == old(storage)
    {
      var stored := if storageKey in storage then Some(storage[storageKey]) else None;
      if stored.Some? && IsLocale(stored.value) {
        locale := stored.value;
      } else {
        var browserLang := Split(browserLanguage, '-')[0];
        if IsLocale(browserLang) {
          locale := browserLang;
        }
      }
      mounted := true;
      documentLang := Some(locale);
    }

    /** setLocale (lines 47-53): anything outside `locales` is ignored. */
    method SetLocale(newLocale: string)
      modifies this
      ensures IsLocale(newLocale) ==>
        locale == newLocale && storage == old(storage)[storageKey := newLocale] && documentLang == Some(newLocale)
      ensures !IsLocale(newLocale) ==> locale == old(locale) && storage == old(storage) && documentLang == old(documentLang)
      ensures mounted == old(mounted)
    {
      if !IsLocale(newLocale) {
        return;
      }
      locale := newLocale;
      storage := storage[storageKey := newLocale];
      documentLang := Some(newLocale);
    }

    /** t (lines 56-83): descend one key segment per iteration. */
    method T(key: string, params: Option<map<string, string>>) returns (r: string)
      ensures r == Translate(dictionaries.For(locale), key, params)
    {
      var keys := Split(key, '.');
      var value := dictionaries.For(locale);
      var i := 0;
      while i < |keys|
        invariant 0 <= i <= |keys|
        invariant Find(dictionaries.For(locale), keys) == Find(value, keys[i..])
      {
        assert keys[i..][1..] == keys[i + 1..];
        match value {
          case Text(_) =>
            return key;
          case Table(entries) =>
            if keys[i] !in entries {
              return key;
            }
            value := entries[keys[i]];
        }
        i := i + 1;
      }
      match value {
        case Text(text) =>
          r := if params.Some? then Interpolate(text, params.value) else text;
        case Table(_) =>
          r := key;
      }
    }
  }
}
