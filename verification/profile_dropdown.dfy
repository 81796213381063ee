/**
 * The sidebar's profile button (`website/src/components/kokonutui/profile-dropdown.tsx`):
 * the initials shown in place of an avatar, and when the avatar image is used.
 */
module ProfileDropdown {
  import opened Text
  import Sequences

  predicate IsWord(w: string) { w != "" }

  /** The words that are not empty; `word[0]` of an empty word is `undefined`, which `join` drops. */
  function NonEmpty(words: seq<string>): (r: seq<string>)
    ensures |r| <= |words|
    ensures forall i | 0 <= i < |r| :: r[i] != "" && r[i] in words
    ensures forall w | w in words && w != "" :: w in r
  {
    if |words| == 0 then []
    else (if words[0] != "" then [words[0]] else []) + NonEmpty(words[1..])
  }

  /** Joining the first characters of the words: one character for every non-empty word, in order. */
  function FirstChars(words: seq<string>): (r: string)
    ensures |r| == |NonEmpty(words)|
    ensures forall i | 0 <= i < |r| :: r[i] == NonEmpty(words)[i][0]
  {
    if |words| == 0 then ""
    else
      var rest := FirstChars(words[1..]);
      assert NonEmpty(words) == (if words[0] != "" then [words[0]] else []) + NonEmpty(words[1..]);
      if words[0] == "" then rest else [words[0][0]] + rest
  }

  /** `getInitials`: split on single spaces, first letters, upper-cased, at most two. */
  function Initials(name: string): (r: string)
    ensures |r| <= 2
    ensures |r| <= |NonEmpty(Split(name, ' '))|
    ensures |r| == 2 || |r| == |NonEmpty(Split(name, ' '))|
    ensures forall i | 0 <= i < |r| :: r[i] == UpperChar(NonEmpty(Split(name, ' '))[i][0])
  {
    var all := Upper(FirstChars(Split(name, ' ')));
    if |all| <= 2 then all else all[..2]
  }

  /**
   * `NonEmpty` filters out the empty words: it keeps the others in their
   * order, each as often as it occurs.
   */
  lemma {:induction false} NonEmptyIsFilter(words: seq<string>)
    ensures NonEmpty(words) == Sequences.Filter(words, IsWord)
    ensures Sequences.Selects(NonEmpty(words), words, IsWord)
    ensures Sequences.IsSubsequence(NonEmpty(words), words)
  {
    if |words| > 0 {
      NonEmptyIsFilter(words[1..]);
    }
    Sequences.FilterSelects(words, IsWord);
    Sequences.FilterIsSubsequence(words, IsWord);
  }

  lemma {:induction false} NonEmptyOfNonEmpty(words: seq<string>)
    requires forall i | 0 <= i < |words| :: words[i] != ""
    ensures NonEmpty(words) == words
  {
    if |words| > 0 {
      NonEmptyOfNonEmpty(words[1..]);
      assert [words[0]] + words[1..] == words;
    }
  }

  /** The initials when the non-empty words of the name are known. */
  lemma InitialsOfSplit(name: string, words: seq<string>)
    requires |words| >= 1 && NonEmpty(Split(name, ' ')) == words
    ensures |words| == 1 ==> Initials(name) == [UpperChar(words[0][0])]
    ensures |words| >= 2 ==> Initials(name) == [UpperChar(words[0][0]), UpperChar(words[1][0])]
  {
    var r := Initials(name);
    if |words| == 1 {
      assert |r| == 1 && r[0] == UpperChar(words[0][0]);
    } else {
      assert |r| == 2 && r[0] == UpperChar(words[0][0]) && r[1] == UpperChar(words[1][0]);
    }
  }

  /** The initials of space-joined words are the capitals of the first one or two words. */
  lemma InitialsOfWords(words: seq<string>)
    requires |words| >= 1
    requires forall i | 0 <= i < |words| :: words[i] != "" && ' ' !in words[i]
    ensures |words| == 1 ==> Initials(Join(words, " ")) == [UpperChar(words[0][0])]
    ensures |words| >= 2 ==> Initials(Join(words, " ")) == [UpperChar(words[0][0]), UpperChar(words[1][0])]
  {
    SplitJoin(words, ' ');
    NonEmptyOfNonEmpty(words);
    InitialsOfSplit(Join(words, " "), words);
  }

  /** Extra spaces in front of a name, as from a double space, change nothing. */
  lemma LeadingSpaceIgnored(name: string)
    ensures Initials(" " + name) == Initials(name)
  {
    assert (" " + name)[1..] == name;
    assert Split(" " + name, ' ') == [""] + Split(name, ' ');
    assert ([""] + Split(name, ' '))[1..] == Split(name, ' ');
  }

  const DefaultAvatar := "/avatars/default.jpg"

  datatype Badge = AvatarImage(src: string) | InitialsBadge(text: string)

  /** The avatar circle: the image unless it is missing or the default picture, the initials otherwise. */
  function ShowBadge(avatar: string, name: string): (b: Badge)
    ensures b.AvatarImage? <==> avatar != "" && avatar != DefaultAvatar
    ensures b.AvatarImage? ==> b.src == avatar
    ensures b.InitialsBadge? ==> b.text == Initials(name) && |b.text| <= 2
  {
    if avatar != "" && avatar != DefaultAvatar then AvatarImage(avatar) else InitialsBadge(Initials(name))
  }
}
