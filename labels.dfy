/** The column label both detail tables derive from a record key:
    `key.split('_').map(w => w.charAt(0).toUpperCase() + w.slice(1)).join(' ')`,
    so `last_modified_time` is shown as `Last Modified Time`. */
module Labels {

  /** Upper-case mapping of one character; only ASCII letters are mapped. */
  function Upper(c: char): char
  {
    if 'a' <= c <= 'z' then (c as int - 32) as char else c
  }

  /** Number of occurrences of `c` in `s`. */
  function Count(s: string, c: char): nat
  {
    if s == [] then 0 else (if s[0] == c then 1 else 0) + Count(s[1..], c)
  }

  /** `s.split(sep)` for a one-character separator: the maximal runs between separators. */
  function Split(s: string, sep: char): (parts: seq<string>)
    ensures |parts| == Count(s, sep) + 1
    ensures forall i :: 0 <= i < |parts| ==> sep !in parts[i]
  {
    if s == [] then [[]]
    else
      var rest := Split(s[1..], sep);
      if s[0] == sep then [[]] + rest
      else [[s[0]] + rest[0]] + rest[1..]
  }

  /** `parts.join(sep)`. */
  function Join(parts: seq<string>, sep: char): string
  {
    if parts == [] then []
    else if |parts| == 1 then parts[0]
    else parts[0] + [sep] + Join(parts[1..], sep)
  }

  /** Splitting and joining on the same separator gives the text back. */
  lemma {:induction false} JoinSplit(s: string, sep: char)
    ensures Join(Split(s, sep), sep) == s
  {
    if s != [] {
      var rest := Split(s[1..], sep);
      JoinSplit(s[1..], sep);
      if s[0] != sep {
        JoinFirst(rest, [s[0]], sep);
      }
    }
  }

  /** Prefixing the first part prefixes the joined text. */
  lemma {:induction false} JoinFirst(parts: seq<string>, pre: string, sep: char)
    requires parts != []
    ensures Join([pre + parts[0]] + parts[1..], sep) == pre + Join(parts, sep)
  {
    var ps := [pre + parts[0]] + parts[1..];
    assert ps[1..] == parts[1..];
  }

  /** `w.charAt(0).toUpperCase() + w.slice(1)` */
  function Capitalize(w: string): string
  {
    if w == [] then [] else [Upper(w[0])] + w[1..]
  }

  /** `parts.map(w => Capitalize(w))` */
  function CapitalizeAll(parts: seq<string>): (ws: seq<string>)
    ensures |ws| == |parts|
  {
    if parts == [] then [] else [Capitalize(parts[0])] + CapitalizeAll(parts[1..])
  }

  /** The capitalised words of a key, one per `_`-separated part. */
  function Words(key: string): seq<string>
  {
    CapitalizeAll(Split(key, '_'))
  }

  /** The label shown for a key. */
  function Label(key: string): string
  {
    Join(Words(key), ' ')
  }

  /** One word per part: the word count is the number of underscores plus one. */
  lemma LabelWordCount(key: string)
    ensures |Words(key)| == Count(key, '_') + 1
  {
  }

  /** Character-by-character reading of the label: `_` becomes a space and
      the character that starts a part is upper-cased. */
  function TitleChars(s: string, atStart: bool): (r: string)
    ensures |r| == |s|
  {
    if s == [] then []
    else if s[0] == '_' then [' '] + TitleChars(s[1..], true)
    else [if atStart then Upper(s[0]) else s[0]] + TitleChars(s[1..], false)
  }

  /** The join of all parts, with the first part capitalised only when `atStart`. */
  function TitleJoin(s: string, atStart: bool): string
  {
    var parts := Split(s, '_');
    var first := if atStart then Capitalize(parts[0]) else parts[0];
    Join([first] + CapitalizeAll(parts[1..]), ' ')
  }

  lemma {:induction false} TitleJoinChars(s: string, atStart: bool)
    ensures TitleJoin(s, atStart) == TitleChars(s, atStart)
  {
    if s != [] {
      if s[0] == '_' {
        TitleJoinChars(s[1..], true);
        TitleJoinSeparator(s, atStart);
      } else {
        TitleJoinChars(s[1..], false);
        TitleJoinLetter(s, atStart);
      }
    }
  }

  lemma TitleJoinSeparator(s: string, atStart: bool)
    requires s != [] && s[0] == '_'
    ensures TitleJoin(s, atStart) == [' '] + TitleJoin(s[1..], true)
  {
    var rest := Split(s[1..], '_');
    var parts := Split(s, '_');
    assert parts[1..] == rest;
    var ws := CapitalizeAll(rest);
    assert ws == [Capitalize(rest[0])] + CapitalizeAll(rest[1..]);
    var all := [[]] + ws;
    assert all[1..] == ws;
  }

  lemma TitleJoinLetter(s: string, atStart: bool)
    requires s != [] && s[0] != '_'
    ensures TitleJoin(s, atStart) == [if atStart then Upper(s[0]) else s[0]] + TitleJoin(s[1..], false)
  {
    var rest := Split(s[1..], '_');
    var parts := Split(s, '_');
    assert parts[1..] == rest[1..];
    var c := if atStart then Upper(s[0]) else s[0];
    var tail := CapitalizeAll(rest[1..]);
    JoinFirst([rest[0]] + tail, [c], ' ');
    assert ([rest[0]] + tail)[1..] == tail;
  }

  /** The label has the key's length; each `_` is a space in it, each part's
      first character is upper-cased and every other character is kept. */
  lemma LabelChars(key: string)
    ensures Label(key) == TitleChars(key, true)
    ensures |Label(key)| == |key|
  {
    TitleJoinChars(key, true);
  }
}
