/** The account buttons' callback data: `login + ":" + type` when the keyboard is
    built, `data.split(":")` followed by `[0]` and `[1]` when a button comes back. */
module CallbackData {
  import opened Wrappers

  /** One GitHub account the user can file issues under. `kind` is the JSON
      `type` field: "user" or "org" when it comes from the API, any string after
      it has travelled through a button. */
  datatype Account = Account(login: string, kind: string)

  const UserKind := "user"
  const OrgKind := "org"
  const Separator := ':'

  /** Python's `str.split(sep)` with an explicit one-character separator:
      every occurrence cuts, empty pieces are kept, and "" splits to [""]. */
  function Split(s: string, sep: char): (parts: seq<string>)
    ensures |parts| >= 1
    ensures |parts| == 1 <==> sep !in s
    ensures forall i :: 0 <= i < |parts| ==> sep !in parts[i]
    decreases |s|
  {
    if s == [] then [""]
    else
      var rest := Split(s[1..], sep);
      assert s == [s[0]] + s[1..];
      if s[0] == sep then [""] + rest
      else [[s[0]] + rest[0]] + rest[1..]
  }

  /** `sep.join(parts)`. */
  function Join(parts: seq<string>, sep: char): (s: string)
    requires |parts| >= 1
    decreases |parts|
  {
    if |parts| == 1 then parts[0] else parts[0] + [sep] + Join(parts[1..], sep)
  }

  /** Splitting loses nothing: joining the pieces gives the string back. */
  lemma {:induction false} JoinSplit(s: string, sep: char)
    ensures Join(Split(s, sep), sep) == s
    decreases |s|
  {
    if s != [] {
      var rest := Split(s[1..], sep);
      JoinSplit(s[1..], sep);
      assert s == [s[0]] + s[1..];
      if s[0] == sep {
        assert Split(s, sep)[1..] == rest;
      } else if |rest| > 1 {
        var parts := Split(s, sep);
        assert parts[1..] == rest[1..];
        assert Join(rest, sep) == rest[0] + [sep] + Join(rest[1..], sep);
        assert Join(parts, sep) == [s[0]] + rest[0] + [sep] + Join(rest[1..], sep);
      }
    }
  }

  /** A string without the separator splits to itself alone. */
  lemma {:induction false} SplitWithoutSeparator(s: string, sep: char)
    requires sep !in s
    ensures Split(s, sep) == [s]
  {
    // the size clause of Split's contract leaves a single piece, and Join gives it back
    JoinSplit(s, sep);
  }

  /** The first separator cuts off a prefix that contains none. */
  lemma {:induction false} SplitAtFirst(prefix: string, sep: char, suffix: string)
    requires sep !in prefix
    ensures Split(prefix + [sep] + suffix, sep) == [prefix] + Split(suffix, sep)
    decreases |prefix|
  {
    var s := prefix + [sep] + suffix;
    if prefix == [] {
      assert s[1..] == suffix;
    } else {
      assert s[1..] == prefix[1..] + [sep] + suffix;
      SplitAtFirst(prefix[1..], sep, suffix);
      var rest := Split(s[1..], sep);
      assert s[0] == prefix[0] != sep;
      assert Split(s, sep) == [[s[0]] + rest[0]] + rest[1..];
      assert [prefix[0]] + prefix[1..] == prefix;
    }
  }

  /** The button data `start` attaches to an account. */
  function Encode(a: Account): (data: string)
    ensures |data| == |a.login| + 1 + |a.kind|
    ensures data[..|a.login|] == a.login && data[|a.login|] == Separator && data[|a.login| + 1..] == a.kind
  {
    a.login + [Separator] + a.kind
  }

  /** `login_type = data.split(":")` and `{'login': login_type[0], 'type': login_type[1]}`.
      `None` stands for the IndexError raised when the data holds no ':'; any
      pieces after the second are dropped. */
  function Decode(data: string): (r: Option<Account>)
    ensures r.None? <==> Separator !in data
    ensures r.Some? ==> Separator !in r.value.login && Separator !in r.value.kind
    ensures r.Some? ==> |r.value.login| < |data| && data[..|r.value.login| + 1] == r.value.login + [Separator]
    ensures r.Some? ==>
      var rest := data[|r.value.login| + 1..];
      && |r.value.kind| <= |rest| && rest[..|r.value.kind|] == r.value.kind
      && (|r.value.kind| == |rest| || rest[|r.value.kind|] == Separator)
  {
    var parts := Split(data, Separator);
    if |parts| < 2 then None
    else
      SplitAtFirstIndex(data, Separator);
      DecodeSecondPiece(data);
      FirstPiece(data[|parts[0]| + 1..], Separator);
      Some(Account(parts[0], parts[1]))
  }

  /** The first piece of a split runs up to the first separator, or to the end. */
  lemma {:induction false} FirstPiece(s: string, sep: char)
    ensures var first := Split(s, sep)[0];
      |first| <= |s| && s[..|first|] == first && (|first| == |s| || s[|first|] == sep)
  {
    if sep in s {
      SplitAtFirstIndex(s, sep);
    } else {
      SplitWithoutSeparator(s, sep);
    }
  }

  /** The second piece of a split is the first piece of what follows the first separator. */
  lemma {:induction false} DecodeSecondPiece(data: string)
    requires Separator in data
    ensures |Split(data, Separator)| >= 2
    ensures var parts := Split(data, Separator);
      |parts[0]| < |data| && Split(data, Separator)[1] == Split(data[|parts[0]| + 1..], Separator)[0]
  {
    var parts := Split(data, Separator);
    SplitAtFirstIndex(data, Separator);
    var login := parts[0];
    var rest := data[|login| + 1..];
    assert data == login + [Separator] + rest by {
      assert data == data[..|login| + 1] + data[|login| + 1..];
    }
    SplitAtFirst(login, Separator, rest);
  }

  /** The first piece of a split is everything before the first separator. */
  lemma {:induction false} SplitAtFirstIndex(s: string, sep: char)
    requires sep in s
    ensures |Split(s, sep)[0]| < |s| && s[..|Split(s, sep)[0]| + 1] == Split(s, sep)[0] + [sep]
    decreases |s|
  {
    var rest := Split(s[1..], sep);
    if s[0] != sep {
      assert s == [s[0]] + s[1..];
      SplitAtFirstIndex(s[1..], sep);
      assert s[..|rest[0]| + 2] == [s[0]] + s[1..][..|rest[0]| + 1];
    }
  }

  /** Round trip: a button built from an account decodes back to that account,
      provided neither the login nor the type holds a ':' (GitHub logins cannot). */
  lemma DecodeEncode(a: Account)
    requires Separator !in a.login && Separator !in a.kind
    ensures Decode(Encode(a)) == Some(a)
  {
    SplitAtFirst(a.login, Separator, a.kind);
    SplitWithoutSeparator(a.kind, Separator);
  }

  /** Data without a ':' (a repository button replayed in the wrong state, say)
      fails at index 1. */
  lemma DecodeNeedsSeparator(data: string)
    requires Separator !in data
    ensures Decode(data).None?
  {
  }
}
