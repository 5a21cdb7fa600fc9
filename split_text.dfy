/**
 * Animated headline text: the text is cut into words at single spaces, each word
 * into one span per character, and each variant staggers the characters in.
 */
module SplitText {

  datatype Variant = Default | Minimal | Premium | Glitch

  /** The named animation state the container is driven to. */
  datatype Target = Hidden | Visible

  /** One character span: the character and the `custom` index it is given. */
  datatype CharSpan = CharSpan(ch: char, custom: nat)

  /** `text.split(' ')`: the pieces between single spaces. Consecutive spaces give
      empty words, and the empty text gives one empty word. */
  function Words(text: string): (ws: seq<string>)
    ensures |ws| >= 1
  {
    if text == [] then [""]
    else if text[0] == ' ' then [""] + Words(text[1..])
    else
      var rest := Words(text[1..]);
      [[text[0]] + rest[0]] + rest[1..]
  }

  /** `words.join(' ')`. */
  function Join(ws: seq<string>): string
    requires |ws| >= 1
  {
    if |ws| == 1 then ws[0] else ws[0] + " " + Join(ws[1..])
  }

  function Spaces(text: string): nat
  {
    if text == [] then 0 else (if text[0] == ' ' then 1 else 0) + Spaces(text[1..])
  }

  /** Joining the words with single spaces gives back the text. */
  lemma {:induction false} JoinWords(text: string)
    ensures Join(Words(text)) == text
  {
    if text != [] {
      JoinWords(text[1..]);
      var rest := Words(text[1..]);
      if text[0] == ' ' {
        assert Words(text) == [""] + rest;
        assert ([""] + rest)[1..] == rest;
        assert text == [' '] + text[1..];
      } else {
        var ws := Words(text);
        assert ws == [[text[0]] + rest[0]] + rest[1..];
        if |rest| == 1 {
          assert text == [text[0]] + text[1..];
        } else {
          assert ws[1..] == rest[1..];
          assert Join(rest) == rest[0] + " " + Join(rest[1..]);
          assert text == [text[0]] + text[1..];
        }
      }
    }
  }

  /** There is one more word than there are spaces. */
  lemma {:induction false} WordCount(text: string)
    ensures |Words(text)| == Spaces(text) + 1
  {
    if text != [] {
      WordCount(text[1..]);
    }
  }

  /** No word contains a space. */
  lemma {:induction false} WordsHaveNoSpace(text: string)
    ensures forall i :: 0 <= i < |Words(text)| ==> ' ' !in Words(text)[i]
  {
    if text != [] {
      WordsHaveNoSpace(text[1..]);
      var rest := Words(text[1..]);
      if text[0] != ' ' {
        var ws := Words(text);
        assert ws[0] == [text[0]] + rest[0];
        forall i | 1 <= i < |ws| ensures ' ' !in ws[i] {
          assert ws[i] == rest[i];
        }
      }
    }
  }

  /** Splitting a join of space-free words gives back the words. */
  lemma {:induction false} WordsOfJoin(ws: seq<string>)
    requires |ws| >= 1
    requires forall i :: 0 <= i < |ws| ==> ' ' !in ws[i]
    ensures Words(Join(ws)) == ws
  {
    if |ws| == 1 {
      WordsOfWord(ws[0], []);
      assert ws[0] + [] == ws[0];
      assert ws == [ws[0]];
    } else {
      WordsOfJoin(ws[1..]);
      WordsOfWord(ws[0], " " + Join(ws[1..]));
      assert ws[0] + " " + Join(ws[1..]) == ws[0] + (" " + Join(ws[1..]));
      assert (" " + Join(ws[1..]))[1..] == Join(ws[1..]);
      assert ws == [ws[0]] + ws[1..];
    }
  }

  /** A space-free prefix glues onto the first word of what follows it. */
  lemma {:induction false} WordsOfWord(w: string, tail: string)
    requires ' ' !in w
    requires tail == [] || tail[0] == ' '
    ensures Words(w + tail) == (if tail == [] then [w] else [w] + Words(tail[1..]))
  {
    if w == [] {
      assert w + tail == tail;
    } else {
      WordsOfWord(w[1..], tail);
      assert (w + tail)[0] == w[0] && (w + tail)[1..] == w[1..] + tail;
      assert [w[0]] + w[1..] == w;
    }
  }

  /** `word.split('')`: one single-character string per character. */
  function Chars(word: string): (cs: seq<string>)
    ensures |cs| == |word|
    ensures forall j :: 0 <= j < |cs| ==> cs[j] == [word[j]]
  {
    if word == [] then [] else [[word[0]]] + Chars(word[1..])
  }

  /** The concatenation of a list of strings. */
  function Concat(ss: seq<string>): string
  {
    if ss == [] then [] else ss[0] + Concat(ss[1..])
  }

  /** The character spans of a word, rendered in order, spell the word. */
  lemma {:induction false} CharsSpellWord(word: string)
    ensures Concat(Chars(word)) == word
  {
    if word != [] {
      CharsSpellWord(word[1..]);
      assert Chars(word)[1..] == Chars(word[1..]);
      assert word == [word[0]] + word[1..];
    }
  }

  /** The spans of one word: character `j` of the word gets `custom = j`, restarting at
      zero in every word. */
  function WordSpans(word: string): (r: seq<CharSpan>)
    ensures |r| == |word|
    ensures forall j :: 0 <= j < |r| ==> r[j].ch == word[j] && r[j].custom == j
  {
    seq(|word|, j requires 0 <= j < |word| => CharSpan(word[j], j))
  }

  /** All spans, word by word. */
  function Spans(text: string): (r: seq<seq<CharSpan>>)
    ensures |r| == |Words(text)|
    ensures forall i :: 0 <= i < |r| ==> r[i] == WordSpans(Words(text)[i])
  {
    var ws := Words(text);
    seq(|ws|, i requires 0 <= i < |ws| => WordSpans(ws[i]))
  }

  /** The hidden vertical offset of a character in the minimal variant. */
  function MinimalHiddenY(custom: nat): (y: string)
    ensures y == "120%" || y == "-120%"
    ensures (y == "120%") <==> custom % 2 == 0
  {
    if custom % 2 == 0 then "120%" else "-120%"
  }

  /** Within a word, neighbouring characters of the minimal variant slide in from
      opposite sides, and every word starts from below. */
  lemma MinimalAlternates(text: string, i: nat, j: nat)
    requires i < |Spans(text)| && j + 1 < |Spans(text)[i]|
    ensures MinimalHiddenY(Spans(text)[i][j].custom) != MinimalHiddenY(Spans(text)[i][j + 1].custom)
    ensures MinimalHiddenY(Spans(text)[i][0].custom) == "120%"
  {
  }

  /** Seconds between consecutive children for each variant. */
  function Stagger(v: Variant): (s: real)
    ensures 0.0 < s <= 0.12
  {
    match v
    case Default => 0.12
    case Minimal => 0.05
    case Premium => 0.05
    case Glitch => 0.03
  }

  /** `delayChildren: delay * i`; the container is not given a `custom`, so `i` is 1. */
  function DelayChildren(delay: real, i: real := 1.0): (d: real)
    ensures i == 1.0 ==> d == delay
  {
    delay * i
  }

  /** `animate={trigger ? "visible" : "hidden"}`. */
  function ContainerTarget(trigger: bool): (t: Target)
    ensures t == Visible <==> trigger
  {
    if trigger then Visible else Hidden
  }
}
