/** The line readers of the plugin's FileManager. A resource file is given as the
    sequence of lines its reader returns, and the platform line separator as a parameter. */
module FileManager {
  import opened Messages
  import Text

  /** readBotInfo's loop from line counter `index` on: a line at an odd counter is a user
      turn, at an even counter an assistant turn, and its text is the line unchanged. */
  function BotInfoFrom(lines: seq<string>, index: int): (r: seq<Message>)
    ensures |r| == |lines|
    ensures forall i :: 0 <= i < |r| ==> r[i].content == lines[i]
    ensures forall i :: 0 <= i < |r| ==> (r[i].role == User <==> (index + i) % 2 == 1)
    decreases |lines|
  {
    if |lines| == 0 then []
    else
      var m := if index % 2 == 1 then Message(User, lines[0]) else Message(Assistant, lines[0]);
      [m] + BotInfoFrom(lines[1..], index + 1)
  }

  /** The conversation seed read from the bot-info file, the counter starting at 1. */
  function ReadBotInfo(lines: seq<string>): (r: seq<Message>)
    ensures |r| == |lines|
    ensures forall i :: 0 <= i < |r| ==> r[i].content == lines[i]
    ensures Alternating(r)
    ensures |lines| >= 1 ==> r[0].role == User
    ensures |lines| == 0 ==> r == []
  {
    BotInfoFrom(lines, 1)
  }

  /** readAnswerBook's loop: puts each line under the counter, starting from `index`,
      into the map built so far. */
  function NumberFrom(lines: seq<string>, index: int, acc: map<int, string>): (r: map<int, string>)
    ensures forall k :: k in r <==> (k in acc || index <= k < index + |lines|)
    ensures forall k :: index <= k < index + |lines| ==> r[k] == lines[k - index]
    ensures forall k :: k in acc && !(index <= k < index + |lines|) ==> r[k] == acc[k]
    decreases |lines|
  {
    if |lines| == 0 then acc
    else NumberFrom(lines[1..], index + 1, acc[index := lines[0]])
  }

  /** The answer book: line i (counting from 1) under key i. */
  function ReadAnswerBook(lines: seq<string>): (book: map<int, string>)
    ensures forall k :: k in book <==> 1 <= k <= |lines|
    ensures forall k :: 1 <= k <= |lines| ==> book[k] == lines[k - 1]
    ensures |lines| == 0 ==> book == map[]
  {
    NumberFrom(lines, 1, map[])
  }

  /** The entries under keys 1..n, in key order. */
  function Entries(book: map<int, string>, n: nat): seq<string>
    requires forall k :: 1 <= k <= n ==> k in book
  {
    seq(n, i requires 0 <= i < n => book[i + 1])
  }

  /** Reading the answer book back in key order gives the file's lines. */
  lemma AnswerBookRoundTrip(lines: seq<string>)
    ensures Entries(ReadAnswerBook(lines), |lines|) == lines
  {
  }

  /** readTemplateFile: every line followed by the line separator, in order. */
  function ReadTemplateFile(lines: seq<string>, sep: string): (r: string)
    ensures |lines| == 0 ==> r == ""
    ensures |lines| >= 1 ==> lines[0] + sep <= r
    ensures |lines| >= 1 ==> |sep| <= |r| && r[|r| - |sep|..] == sep
    decreases |lines|
  {
    if |lines| == 0 then ""
    else lines[0] + sep + ReadTemplateFile(lines[1..], sep)
  }

  /** The template text is the lines joined by the separator, plus one more separator. */
  lemma {:induction false} TemplateIsJoin(lines: seq<string>, sep: string)
    ensures ReadTemplateFile(lines, sep) == Text.Join(lines + [""], sep)
    decreases |lines|
  {
    if |lines| >= 1 {
      TemplateIsJoin(lines[1..], sep);
      assert (lines + [""])[1..] == lines[1..] + [""];
    }
  }

  /** With a one-character separator that no line contains, splitting the template text
      at the separator gives back the lines, followed by the empty text after the last one. */
  lemma TemplateRoundTrip(lines: seq<string>, c: char)
    requires forall i :: 0 <= i < |lines| ==> c !in lines[i]
    ensures Text.Split(ReadTemplateFile(lines, [c]), c) == lines + [""]
  {
    TemplateIsJoin(lines, [c]);
    var xs := lines + [""];
    assert forall i :: 0 <= i < |xs| ==> c !in xs[i];
    Text.SplitJoin(xs, c);
  }

  /** Each line of the bot-info file appears as one turn, verbatim and in order. */
  lemma {:induction false} BotInfoContents(lines: seq<string>)
    ensures Contents(ReadBotInfo(lines)) == lines
    decreases |lines|
  {
    if |lines| >= 1 {
      var r := ReadBotInfo(lines);
      assert r == BotInfoFrom(lines, 1) == [r[0]] + BotInfoFrom(lines[1..], 2);
      ContentsFrom(lines[1..], 2);
    }
  }

  lemma {:induction false} ContentsFrom(lines: seq<string>, index: int)
    ensures Contents(BotInfoFrom(lines, index)) == lines
    decreases |lines|
  {
    if |lines| >= 1 {
      ContentsFrom(lines[1..], index + 1);
    }
  }

  /** The bot-info turns are whole user/assistant exchanges exactly when the file has an
      even number of lines; there are ceil(n/2) user and floor(n/2) assistant turns. */
  lemma BotInfoPairs(lines: seq<string>)
    ensures StrictPairs(ReadBotInfo(lines)) <==> |lines| % 2 == 0
    ensures CountRole(ReadBotInfo(lines), User) == (|lines| + 1) / 2
    ensures CountRole(ReadBotInfo(lines), Assistant) == |lines| / 2
  {
    AlternatingPairs(ReadBotInfo(lines));
    AlternatingCounts(ReadBotInfo(lines));
  }
}
