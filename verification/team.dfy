/**
 * The team page's two pieces of logic: the initials shown when a member has
 * no photo, and the easter egg that counts clicks on each member's emoji
 * and opens a modal with a rotating message.
 */
module Team {
  import opened Js

  // ---------------------------------------------------------------------
  // Initials.
  // ---------------------------------------------------------------------

  /** The characters `\s` matches in a JavaScript regular expression. */
  predicate IsSpace(c: char) {
    var n := c as int;
    || n == 0x20 || 0x09 <= n <= 0x0D || n == 0xA0 || n == 0x1680
    || 0x2000 <= n <= 0x200A || n == 0x2028 || n == 0x2029
    || n == 0x202F || n == 0x205F || n == 0x3000 || n == 0xFEFF
  }

  predicate NoSpace(w: string) {
    forall i :: 0 <= i < |w| ==> !IsSpace(w[i])
  }

  /**
   * `split(/\s+/).filter(Boolean)` on `s`, where `word` holds the characters
   * of the word being read: the maximal runs of non-space characters, in order.
   */
  function Split(s: string, word: string): (words: seq<string>)
    requires NoSpace(word)
    ensures forall k :: 0 <= k < |words| ==> |words[k]| > 0 && NoSpace(words[k])
    decreases |s|
  {
    if s == [] then
      (if word == "" then [] else [word])
    else if IsSpace(s[0]) then
      (if word == "" then [] else [word]) + Split(s[1..], "")
    else
      Split(s[1..], word + [s[0]])
  }

  /** The non-empty whitespace-separated words of a name. */
  function Words(name: string): (words: seq<string>)
    ensures forall k :: 0 <= k < |words| ==> |words[k]| > 0 && NoSpace(words[k])
  {
    Split(name, "")
  }

  /** `toUpperCase` on one character, for ASCII letters. */
  function Upper(c: char): (u: char)
    ensures !('a' <= u <= 'z')
    ensures 'a' <= c <= 'z' ==> 'A' <= u <= 'Z' && u as int - 'A' as int == c as int - 'a' as int
    ensures !('a' <= c <= 'z') ==> u == c
  {
    if 'a' <= c <= 'z' then (c as int - 32) as char else c
  }

  /**
   * `initials(name)`: the first character of each of the first two words,
   * upper-cased.
   */
  function Initials(name: string): (r: string)
    ensures |r| <= 2
    ensures |r| == Min(2, |Words(name)|)
    ensures forall k :: 0 <= k < |r| ==> r[k] == Upper(Words(name)[k][0])
  {
    var words := Take(Words(name), 2);
    seq(|words|, k requires 0 <= k < |words| => Upper(words[k][0]))
  }

  /** `s` with its whitespace removed. */
  function RemoveSpaces(s: string): (r: string)
    ensures NoSpace(r)
    decreases |s|
  {
    if s == [] then ""
    else (if IsSpace(s[0]) then "" else [s[0]]) + RemoveSpaces(s[1..])
  }

  function Concat(words: seq<string>): string
    decreases |words|
  {
    if words == [] then "" else words[0] + Concat(words[1..])
  }

  /** Splitting loses only the whitespace: the words joined back together are the text without it. */
  lemma {:induction false} SplitKeepsText(s: string, word: string)
    requires NoSpace(word)
    ensures Concat(Split(s, word)) == word + RemoveSpaces(s)
    decreases |s|
  {
    if s == [] {
      if word != "" {
        assert Concat([word]) == word + Concat([]);
      }
    } else if IsSpace(s[0]) {
      SplitKeepsText(s[1..], "");
      var head := if word == "" then [] else [word];
      ConcatAppend(head, Split(s[1..], ""));
      if word != "" {
        assert Concat([word]) == word + Concat([]);
      }
    } else {
      SplitKeepsText(s[1..], word + [s[0]]);
      assert word + [s[0]] + RemoveSpaces(s[1..]) == word + ([s[0]] + RemoveSpaces(s[1..]));
    }
  }

  lemma {:induction false} ConcatAppend(xs: seq<string>, ys: seq<string>)
    ensures Concat(xs + ys) == Concat(xs) + Concat(ys)
    decreases |xs|
  {
    if xs == [] {
      assert xs + ys == ys;
    } else {
      assert (xs + ys)[0] == xs[0];
      assert (xs + ys)[1..] == xs[1..] + ys;
      ConcatAppend(xs[1..], ys);
      assert xs[0] + (Concat(xs[1..]) + Concat(ys)) == (xs[0] + Concat(xs[1..])) + Concat(ys);
    }
  }

  /** The words of a name joined together are the name without its whitespace. */
  lemma WordsKeepText(name: string)
    ensures Concat(Words(name)) == RemoveSpaces(name)
  {
    SplitKeepsText(name, "");
  }

  /** Text made only of whitespace, read from a word boundary, has no words. */
  lemma {:induction false} SplitOfSpaces(s: string)
    requires forall i :: 0 <= i < |s| ==> IsSpace(s[i])
    ensures Split(s, "") == []
    decreases |s|
  {
    if s != [] {
      SplitOfSpaces(s[1..]);
    }
  }

  /** An empty or all-whitespace name has empty initials. */
  lemma BlankNameNoInitials(name: string)
    requires forall i :: 0 <= i < |name| ==> IsSpace(name[i])
    ensures Initials(name) == ""
  {
    SplitOfSpaces(name);
  }

  /** The first word starts with the word being read, when there is one. */
  lemma {:induction false} SplitStartsWithWord(s: string, word: string)
    requires NoSpace(word) && word != ""
    ensures Split(s, word) != [] && Split(s, word)[0][0] == word[0]
    decreases |s|
  {
    if s != [] && !IsSpace(s[0]) {
      SplitStartsWithWord(s[1..], word + [s[0]]);
    }
  }

  /** After leading whitespace, the first word starts at the first other character. */
  lemma {:induction false} SplitFirstWord(s: string, i: nat)
    requires i < |s| && !IsSpace(s[i])
    requires forall j :: 0 <= j < i ==> IsSpace(s[j])
    ensures Split(s, "") != [] && Split(s, "")[0][0] == s[i]
    decreases i
  {
    if i == 0 {
      assert "" + [s[0]] == [s[0]];
      SplitStartsWithWord(s[1..], [s[0]]);
    } else {
      assert Split(s, "") == [] + Split(s[1..], "");
      assert [] + Split(s[1..], "") == Split(s[1..], "");
      SplitFirstWord(s[1..], i - 1);
    }
  }

  /** The first initial is the first non-space character of the name, upper-cased. */
  lemma FirstInitial(name: string, i: nat)
    requires i < |name| && !IsSpace(name[i])
    requires forall j :: 0 <= j < i ==> IsSpace(name[j])
    ensures |Initials(name)| >= 1 && Initials(name)[0] == Upper(name[i])
  {
    SplitFirstWord(name, i);
  }

  // ---------------------------------------------------------------------
  // The emoji easter egg.
  // ---------------------------------------------------------------------

  /** The messages and colour of one emoji's easter egg. */
  datatype EmojiData = EmojiData(messages: seq<string>, color: string)

  /** `easterEggMessages`: each member's emoji, its three messages and its colour. */
  const EasterEggMessages: map<string, EmojiData> := map[
    "⚽" := EmojiData([
        "GOOOAL! ⚽ Benjamin scores for CSUN!",
        "🏆 Benjamin is dribbling through cybersecurity like Messi!",
        "⚽ Fun fact: Benjamin can secure a network faster than a penalty kick!"],
      "#4CAF50"),
    "🍵" := EmojiData([
        "🍵 *sips matcha* Laila is brewing up some data science magic!",
        "🧠 Matcha + Data Science = Pure genius! That's Laila!",
        "🍵 Fun fact: Laila's algorithms are as smooth as her matcha lattes!"],
      "#66BB6A"),
    "🌟" := EmojiData([
        "✨ Aaliyah shines bright like a cybersecurity star!",
        "🌟 Technology engineering meets stellar personality!",
        "⭐ Aaliyah: Making Langston University proud, one byte at a time!"],
      "#FFD700"),
    "📚" := EmojiData([
        "📖 Caroline is the project manager who reads between the lines!",
        "📚 Adventure awaits! Caroline leads our team on epic coding quests!",
        "🗺️ Caroline: Navigating project timelines like a literary adventure!"],
      "#FF7043"),
    "🏎️" := EmojiData([
        "🏁 Jonathan codes at Formula 1 speed! Database queries go VROOM!",
        "🏈 Touchdown! Jonathan scores with perfect database schemas!",
        "🏔️ From snowboard slopes to data slopes - Jonathan conquers all!"],
      "#F44336"),
    "🕹️" := EmojiData([
        "🎮 Miles: Collecting retro tech AND building modern solutions!",
        "👾 ERROR 404: Miles' vintage game collection not found (it's too massive)!",
        "🕹️ From Atari to APIs - Miles bridges all eras of technology!"],
      "#9C27B0"),
    "🎨" := EmojiData([
        "🖌️ Janie paints beautiful code like she paints on canvas!",
        "📺 Binge-watching shows for 'research' - classic Janie move!",
        "🎨 Janie: Making frontend interfaces as beautiful as her artwork!"],
      "#E91E63"),
    "🎵" := EmojiData([
        "🎶 John codes to the rhythm! His backend beats are 🔥!",
        "🏂 From powder to programming - John shreds code like fresh snow!",
        "🎤 John's API responses are music to our ears!"],
      "#3F51B5"),
    "✈️" := EmojiData([
        "🛡️ Rae: Flying high with CyberSloth Security wisdom!",
        "✈️ Dreaming big and securing bigger! That's the Rae way!",
        "🎭 Art meets cybersecurity - Rae brings creativity to digital defense!"],
      "#00BCD4")
  ]

  /** The modal's content. `message` is absent when the emoji has no messages to pick from. */
  datatype Modal = Modal(
    title: string,
    message: Option<string>,
    subtitle: string,
    color: string,
    emoji: string,
    memberName: string,
    isAchievement: bool)

  /** A decimal digit. */
  function Digit(d: nat): char
    requires d < 10
  {
    ('0' as int + d) as char
  }

  /** A count written in decimal, as a template literal renders it. */
  function NatToString(n: nat): (s: string)
    ensures |s| > 0
    ensures forall i :: 0 <= i < |s| ==> '0' <= s[i] <= '9'
    decreases n
  {
    if n < 10 then [Digit(n)] else NatToString(n / 10) + [Digit(n % 10)]
  }

  /** The character's digit value. */
  function DigitValue(c: char): int {
    c as int - '0' as int
  }

  /** The decimal value of a string of digits. */
  function ParseNat(s: string): int
    decreases |s|
  {
    if s == [] then 0 else 10 * ParseNat(s[..|s| - 1]) + DigitValue(s[|s| - 1])
  }

  /** Reading the decimal text back gives the count. */
  lemma {:induction false} NatToStringRoundTrip(n: nat)
    ensures ParseNat(NatToString(n)) == n
    decreases n
  {
    if n >= 10 {
      NatToStringRoundTrip(n / 10);
      var s := NatToString(n);
      assert s[..|s| - 1] == NatToString(n / 10);
    }
  }

  /** The achievement modal for the fifth click. */
  function AchievementModal(emoji: string, memberName: string): (m: Modal)
    ensures m.isAchievement && m.memberName == memberName
    ensures m.message == Some(memberName + " Super Fan!")
  {
    Modal("🏆 ACHIEVEMENT UNLOCKED!",
          Some(memberName + " Super Fan!"),
          "You've clicked " + emoji + " 5 times! You're officially obsessed! 😄",
          "#FFD700", "🏆", memberName, true)
  }

  /** `(count - 1) % messages.length`, `None` for an empty message list (`% 0` is `NaN`). */
  function MessageIndex(count: nat, n: nat): (i: Option<nat>)
    requires count >= 1
    ensures i.Some? <==> n > 0
    ensures i.Some? ==> i.value < n
  {
    if n == 0 then None else Some((count - 1) % n)
  }

  /** `3 - (count % 3)`: always 1, 2 or 3, and 3 right after a multiple of three clicks. */
  function UntilNextMessage(count: nat): (n: int)
    ensures 1 <= n <= 3
    ensures n == 3 <==> count % 3 == 0
  {
    3 - count % 3
  }

  lemma MulDistributes(n: int, q: int, d: int)
    ensures n * q - n * d == n * (q - d)
  {
  }

  /** A positive multiple of `n` is at least `n`. */
  lemma {:induction false} MulAtLeast(n: int, k: int)
    requires n > 0 && k >= 1
    ensures n * k >= n
    decreases k
  {
    if k > 1 {
      MulAtLeast(n, k - 1);
      MulDistributes(n, k, 1);
    }
  }

  /** A remainder is determined by any quotient-remainder decomposition. */
  lemma ModUnique(x: int, n: int, q: int, r: int)
    requires n > 0 && 0 <= r < n && x == n * q + r
    ensures x % n == r
  {
    var d := x / n;
    var m := x % n;
    assert x == n * d + m;
    MulDistributes(n, q, d);
    var k := q - d;
    assert n * k == m - r;
    if k >= 1 {
      MulAtLeast(n, k);
    } else if k <= -1 {
      MulAtLeast(n, -k);
      MulDistributes(n, 0, k);
    }
  }

  /** Messages cycle: `n` more clicks show the same message again. */
  lemma MessagesCycle(count: nat, n: nat)
    requires count >= 1 && n > 0
    ensures MessageIndex(count + n, n) == MessageIndex(count, n)
  {
    var m := count - 1;
    assert m == n * (m / n) + m % n;
    ModUnique(m + n, n, m / n + 1, m % n);
  }

  /** Each further click shows the next message, wrapping to the first after the last. */
  lemma NextClickNextMessage(count: nat, n: nat)
    requires count >= 1 && n > 0
    ensures MessageIndex(count + 1, n).value == (MessageIndex(count, n).value + 1) % n
  {
    var m := count - 1;
    var r := m % n;
    assert m == n * (m / n) + r;
    if r + 1 < n {
      ModUnique(count, n, m / n, r + 1);
      ModUnique(r + 1, n, 0, r + 1);
    } else {
      ModUnique(count, n, m / n + 1, 0);
      ModUnique(r + 1, n, 1, 0);
    }
  }

  /** The ordinary modal for a click that is not the fifth. */
  function MessageModal(emoji: string, memberName: string, count: nat, data: EmojiData): (m: Modal)
    requires count >= 1
    ensures !m.isAchievement && m.emoji == emoji && m.memberName == memberName && m.color == data.color
    ensures m.message.Some? <==> |data.messages| > 0
    ensures m.message.Some? ==> m.message.value in data.messages
  {
    var i := MessageIndex(count, |data.messages|);
    Modal(emoji + " " + memberName,
          if i.Some? then Some(data.messages[i.value]) else None,
          "Click count: " + NatToString(count) + " | " + NatToString(UntilNextMessage(count) as nat) + " more for next message",
          data.color, emoji, memberName, false)
  }

  /** `easterEggCount[emoji] || 0` */
  function CountOf(counts: map<string, nat>, emoji: string): nat {
    if emoji in counts then counts[emoji] else 0
  }

  /** The team page's easter-egg state: the click counters and the open modal. */
  class EasterEgg {
    /** `easterEggMessages`: emoji to its messages and colour. */
    const messages: map<string, EmojiData>
    var counts: map<string, nat>
    var modal: Option<Modal>

    /** The page's initial state: no clicks counted and no modal open. */
    constructor ()
      ensures messages == EasterEggMessages
      ensures counts == map[] && modal.None?
    {
      messages := EasterEggMessages;
      counts := map[];
      modal := None;
    }

    /**
     * `handleEmojiClick(emoji, memberName)`: count the click; for an emoji
     * with messages, open the achievement modal on the fifth click and
     * otherwise the modal with the next message in turn.
     */
    method HandleEmojiClick(emoji: string, memberName: string)
      modifies this
      ensures counts == old(counts)[emoji := CountOf(old(counts), emoji) + 1]
      ensures forall e :: e != emoji ==> CountOf(counts, e) == CountOf(old(counts), e)
      ensures emoji !in messages ==> modal == old(modal)
      ensures emoji in messages && counts[emoji] == 5 ==> modal == Some(AchievementModal(emoji, memberName))
      ensures emoji in messages && counts[emoji] != 5 ==>
        && modal == Some(MessageModal(emoji, memberName, counts[emoji], messages[emoji]))
        && (|messages[emoji].messages| > 0 ==>
              modal.value.message == Some(messages[emoji].messages[(counts[emoji] - 1) % |messages[emoji].messages|]))
    {
      var count := CountOf(counts, emoji) + 1;
      counts := counts[emoji := count];
      if emoji in messages {
        var emojiData := messages[emoji];
        if count == 5 {
          modal := Some(AchievementModal(emoji, memberName));
        } else {
          modal := Some(MessageModal(emoji, memberName, count, emojiData));
        }
      }
    }
  }
}
