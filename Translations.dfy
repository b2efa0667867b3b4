/** `backoffice/src/hooks/useTranslations.ts`: the translation tables, chosen by language,
    and `t`, which looks up a dot-separated key in the chosen table and falls back to the
    key itself. */
module Translations {
  import opened Wrappers
  import opened Text

  /** A value of a locale JSON file: a string, or an object of further values. */
  datatype Node = Str(s: string) | Obj(entries: map<string, Node>)

  /** A whole locale file. */
  type Table = map<string, Node>

  /** `translations[language === 'es' ? es : en]` */
  function TableFor(language: string, es: Table, en: Table): (t: Table)
    ensures language == "es" ==> t == es
    ensures language != "es" ==> t == en
  {
    if language == "es" then es else en
  }

  /** JavaScript truthiness of what a step of the walk reached: `undefined` and the empty
      string are falsy, every object is truthy. */
  predicate Truthy(v: Option<Node>) {
    v.Some? && (v.value.Str? ==> v.value.s != "")
  }

  /** `translation[k]` for an own key of a JSON value; a string has no such keys. */
  function Index(n: Node, k: string): (r: Option<Node>)
    ensures r.Some? <==> n.Obj? && k in n.entries
  {
    if n.Obj? && k in n.entries then Some(n.entries[k]) else None
  }

  /** The value the loop holds when it ends, from `n` through `keys`: it steps one key at
      a time and stops at the first falsy value. */
  function Walk(n: Node, keys: seq<string>): Option<Node>
    decreases |keys|
  {
    if |keys| == 0 then Some(n)
    else
      var next := Index(n, keys[0]);
      if !Truthy(next) then next else Walk(next.value, keys[1..])
  }

  /** The value at the end of a path when every step exists, with no early stop: an
      independent reading of a nested key. */
  function At(n: Node, path: seq<string>): Option<Node>
    decreases |path|
  {
    if |path| == 0 then Some(n)
    else match Index(n, path[0])
      case None => None
      case Some(c) => At(c, path[1..])
  }

  /** The early stop changes nothing that matters: the walk reaches a truthy value exactly
      when the full path does, and then it is the same value. */
  lemma {:induction false} WalkIsAt(n: Node, keys: seq<string>)
    ensures Truthy(Walk(n, keys)) <==> Truthy(At(n, keys))
    ensures Truthy(Walk(n, keys)) ==> Walk(n, keys) == At(n, keys)
    decreases |keys|
  {
    if |keys| > 0 {
      var next := Index(n, keys[0]);
      if Truthy(next) {
        WalkIsAt(next.value, keys[1..]);
      } else if next.Some? {
        // An empty string: the walk stops there, and the path either ends there too or
        // tries to index a string.
        assert next.value == Str("");
        if |keys| > 1 {
          assert Index(next.value, keys[1]).None?;
        }
      }
    }
  }

  /** What `t(key)` returns: the value the key's path leads to when it is truthy,
      otherwise the key. */
  function Translation(table: Table, key: string): (r: Node)
    ensures Truthy(At(Obj(table), Split(key, '.'))) ==> r == At(Obj(table), Split(key, '.')).value
    ensures !Truthy(At(Obj(table), Split(key, '.'))) ==> r == Str(key)
  {
    WalkIsAt(Obj(table), Split(key, '.'));
    var found := Walk(Obj(table), Split(key, '.'));
    if Truthy(found) then found.value else Str(key)
  }

  /** `t(key)`: splits the key on dots and indexes the table segment by segment, leaving
      the loop at the first falsy value; `translation || key` then picks the key unless
      a truthy value was reached. */
  method T(table: Table, key: string) returns (r: Node)
    ensures r == Translation(table, key)
  {
    var keys := Split(key, '.');
    var translation := Some(Obj(table));
    var i := 0;
    while i < |keys|
      invariant 0 <= i <= |keys|
      invariant Truthy(translation)
      invariant Walk(Obj(table), keys) == Walk(translation.value, keys[i..])
      decreases |keys| - i
    {
      assert keys[i..][1..] == keys[i + 1..];
      translation := Index(translation.value, keys[i]);
      if !Truthy(translation) {
        break;
      }
      i := i + 1;
    }
    r := if Truthy(translation) then translation.value else Str(key);
  }

  /** Splitting a string without the separator gives the string alone. */
  lemma {:induction false} SplitNoSeparator(s: string, sep: char)
    requires sep !in s
    ensures Split(s, sep) == [s]
    decreases |s|
  {
    if |s| > 0 {
      SplitNoSeparator(s[1..], sep);
      assert [s[0]] + s[1..] == s;
    }
  }

  /** A segment without the separator, then the separator, splits off as one part. */
  lemma {:induction false} SplitAfterSegment(a: string, sep: char, t: string)
    requires sep !in a
    ensures Split(a + [sep] + t, sep) == [a] + Split(t, sep)
    decreases |a|
  {
    if |a| == 0 {
      assert a + [sep] + t == [sep] + t;
      assert ([sep] + t)[1..] == t;
    } else {
      SplitAfterSegment(a[1..], sep, t);
      var s := a + [sep] + t;
      assert s[0] == a[0] && s[1..] == a[1..] + [sep] + t;
      assert [a[0]] + a[1..] == a;
    }
  }

  /** Joining dot-free segments with dots and splitting the result gives the segments
      back: the key a caller writes for a path is read as that path. */
  lemma {:induction false} JoinSplit(parts: seq<string>, sep: char)
    requires |parts| >= 1
    requires forall k :: 0 <= k < |parts| ==> sep !in parts[k]
    ensures Split(Join(parts, sep), sep) == parts
    decreases |parts|
  {
    if |parts| == 1 {
      SplitNoSeparator(parts[0], sep);
    } else {
      JoinSplit(parts[1..], sep);
      SplitAfterSegment(parts[0], sep, Join(parts[1..], sep));
      assert [parts[0]] + parts[1..] == parts;
    }
  }

  /** The key written for a path of dot-free segments translates to the non-empty value
      at the end of that path, and to itself when the path is missing or ends at an
      empty string. */
  lemma PathKey(table: Table, path: seq<string>)
    requires |path| >= 1
    requires forall k :: 0 <= k < |path| ==> '.' !in path[k]
    ensures Truthy(At(Obj(table), path)) ==>
      Translation(table, Join(path, '.')) == At(Obj(table), path).value
    ensures !Truthy(At(Obj(table), path)) ==>
      Translation(table, Join(path, '.')) == Str(Join(path, '.'))
  {
    JoinSplit(path, '.');
  }
}
