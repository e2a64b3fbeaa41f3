/** The chat operations src/post/mod.rs adds to the generated record (re-exported as
    `Post`): recognising a "command " line, building posts, and taking a post apart. */
module PostMessage {
  import opened Io
  import opened ProtoMessage

  const COMMAND_PREFIX: string := "command "

  /** `command`: the rest of the first line when it starts with "command ". */
  function Command(m: MessageValue): (r: Option<string>)
    ensures r.Some? <==> |m.text| > 0 && COMMAND_PREFIX <= m.text[0]
    ensures r.Some? ==> COMMAND_PREFIX + r.value == m.text[0]
  {
    var text := m.text;
    if |text| > 0 && COMMAND_PREFIX <= text[0] then
      assert COMMAND_PREFIX + text[0][|COMMAND_PREFIX|..] == text[0];
      Some(text[0][|COMMAND_PREFIX|..])
    else
      None
  }

  /** Only the first line is examined: what follows it never changes the command. */
  lemma CommandReadsFirstLineOnly(m: MessageValue, rest: seq<string>)
    requires |m.text| > 0
    ensures Command(m.(text := [m.text[0]] + rest)) == Command(m)
  {
  }

  /** A line "command " + c is the command c, whatever c is. */
  lemma CommandOfPrefixedLine(m: MessageValue, c: string)
    requires |m.text| > 0 && m.text[0] == COMMAND_PREFIX + c
    ensures Command(m) == Some(c)
  {
    assert COMMAND_PREFIX <= m.text[0];
    assert m.text[0][|COMMAND_PREFIX|..] == c;
  }

  /** `from_result`: a post by "nobody" whose only line is the result. */
  function FromResult(result: string): (p: MessageValue)
    ensures HasAuthor(p) && GetAuthor(p) == "nobody"
    ensures p.text == [result] && p.unknownFields == map[]
    ensures IsInitialized(p)
  {
    Default().(author := Some("nobody")).(text := [result])
  }

  /** `from_text`: a post with the given author and lines and nothing else. */
  function FromText(author: string, text: seq<string>): (p: MessageValue)
    ensures HasAuthor(p) && GetAuthor(p) == author
    ensures p.text == text && p.unknownFields == map[]
    ensures IsInitialized(p)
  {
    Default().(author := Some(author)).(text := text)
  }

  /** `take`: the author (or "" when unset) and the lines. Taking apart a post that
      has an author and no unknown fields and building it again gives an equal post. */
  function Take(m: MessageValue): (r: (string, seq<string>))
    ensures HasAuthor(m) && m.unknownFields == map[] ==> Eq(FromText(r.0, r.1), m)
    ensures !HasAuthor(m) ==> r.0 == ""
  {
    (GetAuthor(m), m.text)
  }

  /** Records equal under `eq` are taken apart alike. */
  lemma TakeRespectsEq(a: MessageValue, b: MessageValue)
    requires Eq(a, b)
    ensures Take(a) == Take(b)
  {
  }

  /** Building a post and taking it apart gives back the author and lines. */
  lemma TakeFromText(author: string, text: seq<string>)
    ensures Take(FromText(author, text)) == (author, text)
  {
  }
}
