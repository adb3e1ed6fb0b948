/** Splitting a string at a separator: strings.Split. */
module Strings {

  function Split(t: string, separator: char): (parts: seq<string>)
    ensures |parts| >= 1
  {
    if t == "" then [""]
    else
      var rest := Split(t[1..], separator);
      if t[0] == separator then [""] + rest else [[t[0]] + rest[0]] + rest[1..]
  }

  lemma {:induction false} SplitOne(t: string, separator: char)
    requires separator !in t
    ensures Split(t, separator) == [t]
  {
    if t != "" {
      SplitOne(t[1..], separator);
      assert [t[0]] + t[1..] == t;
    }
  }

  lemma {:induction false} SplitAppend(t: string, separator: char, part: string)
    requires separator !in part
    ensures Split(t + ([separator] + part), separator) == Split(t, separator) + [part]
  {
    if t == "" {
      SplitOne(part, separator);
      assert ([separator] + part)[1..] == part;
      assert t + ([separator] + part) == [separator] + part;
    } else {
      SplitAppend(t[1..], separator, part);
      assert (t + ([separator] + part))[1..] == t[1..] + ([separator] + part);
    }
  }
}
