/** The avatar (`Avatar.tsx`): an image when a source is given, otherwise the
    name's initials, or '?' without a name. The initials are the first
    characters of the space-separated parts of the name, upper-cased and cut
    to two. */
module Avatar {
  import opened Wrappers
  import opened Text
  import opened Seqs

  /** `part[0]` as `join('')` renders it: the first character, or nothing for
      an empty part (`undefined` joins as the empty string). */
  function Head(part: string): (r: string)
    ensures |r| <= 1
  {
    if part == "" then "" else [part[0]]
  }

  /** `parts.map(part => part[0]).join('')`. */
  function Heads(parts: seq<string>): string
  {
    Flatten(Map(parts, Head))
  }

  /** `getInitials`. */
  function Initials(name: string): string
  {
    Take(Upper(Heads(Split(name, ' '))), 2)
  }

  lemma HeadsCons(p: string, ps: seq<string>)
    ensures Heads([p] + ps) == Head(p) + Heads(ps)
  {
    assert ([p] + ps)[1..] == ps;
  }

  lemma HeadsAppend(a: seq<string>, b: seq<string>)
    ensures Heads(a + b) == Heads(a) + Heads(b)
  {
    assert Map(a + b, Head) == Map(a, Head) + Map(b, Head);
    FlattenAppend(Map(a, Head), Map(b, Head));
  }

  /** The parts' first characters are the characters of the string that are
      not separators and follow a separator or the start: there are none
      exactly when the string is all separators, the first is the string's
      first non-separator, and each is a non-separator of the string. */
  lemma {:induction false} HeadsSplit(s: string, sep: char)
    ensures Heads(Split(s, sep)) == [] <==> forall i :: 0 <= i < |s| ==> s[i] == sep
    ensures forall k :: (0 <= k < |s| && s[k] != sep && forall j :: 0 <= j < k ==> s[j] == sep) ==>
              Heads(Split(s, sep)) != [] && Heads(Split(s, sep))[0] == s[k]
    ensures forall c :: c in Heads(Split(s, sep)) ==> c in s && c != sep
    decreases |s|
  {
    if s == [] {
      HeadsCons("", []);
    } else {
      var rest := Split(s[1..], sep);
      HeadsSplit(s[1..], sep);
      HeadsSplitStep(s, sep);
      if s[0] == sep {
        forall k | 0 <= k < |s| && s[k] != sep && (forall j :: 0 <= j < k ==> s[j] == sep)
          ensures Heads(Split(s, sep)) != [] && Heads(Split(s, sep))[0] == s[k]
        {
          assert k >= 1;
          assert s[1..][k - 1] == s[k];
          assert forall j :: 0 <= j < k - 1 ==> s[1..][j] == sep;
        }
        if forall i :: 0 <= i < |s[1..]| ==> s[1..][i] == sep {
          forall i | 0 <= i < |s| ensures s[i] == sep {
            if i > 0 { assert s[i] == s[1..][i - 1]; }
          }
        }
      } else {
        forall c | c in Heads(rest[1..]) ensures c in s && c != sep {
          assert c in Heads(rest);
          assert c in s[1..];
        }
      }
    }
  }

  /** The first characters of the parts after one more character: a
      separator opens an empty part, anything else starts the first part. */
  lemma HeadsSplitStep(s: string, sep: char)
    requires s != []
    ensures s[0] == sep ==> Heads(Split(s, sep)) == Heads(Split(s[1..], sep))
    ensures s[0] != sep ==>
              var rest := Split(s[1..], sep);
              Heads(Split(s, sep)) == [s[0]] + Heads(rest[1..]) &&
              Heads(rest) == Head(rest[0]) + Heads(rest[1..])
  {
    var rest := Split(s[1..], sep);
    if s[0] == sep {
      HeadsCons("", rest);
    } else {
      assert rest == [rest[0]] + rest[1..];
      HeadsCons(rest[0], rest[1..]);
      HeadsCons([s[0]] + rest[0], rest[1..]);
    }
  }

  /** Splitting at a separator splits the parts. */
  lemma {:induction false} SplitAt(a: string, b: string, sep: char)
    ensures Split(a + [sep] + b, sep) == Split(a, sep) + Split(b, sep)
    decreases |a|
  {
    if a == [] {
      assert a + [sep] + b == [sep] + b;
      assert ([sep] + b)[1..] == b;
    } else {
      assert (a + [sep] + b)[1..] == a[1..] + [sep] + b;
      SplitAt(a[1..], b, sep);
    }
  }

  /** A non-empty word without the separator is a single part. */
  lemma {:induction false} SplitWord(w: string, sep: char)
    requires sep !in w
    ensures Split(w, sep) == [w]
    decreases |w|
  {
    if w != [] {
      SplitWord(w[1..], sep);
      assert [w[0]] + w[1..] == w;
    }
  }

  /** At most two characters, none of them a lower-case letter, taken in
      order from the upper-cased first characters of the parts; empty exactly
      when the name is all spaces, and otherwise starting with the name's
      first non-space character, upper-cased. */
  lemma InitialsSpec(name: string)
    ensures |Initials(name)| <= 2
    ensures forall i :: 0 <= i < |Initials(name)| ==> !IsLowerLetter(Initials(name)[i])
    ensures Initials(name) == Upper(Heads(Split(name, ' ')))[..|Initials(name)|]
    ensures Initials(name) == [] <==> forall i :: 0 <= i < |name| ==> name[i] == ' '
    ensures forall k :: (0 <= k < |name| && name[k] != ' ' && forall j :: 0 <= j < k ==> name[j] == ' ') ==>
              Initials(name) != [] && Initials(name)[0] == UpperChar(name[k])
  {
    HeadsSplit(name, ' ');
  }

  /** A first and a last name give the two upper-cased first letters. */
  lemma InitialsOfTwoWords(first: string, last: string)
    requires first != "" && last != "" && ' ' !in first && ' ' !in last
    ensures Initials(first + " " + last) == [UpperChar(first[0]), UpperChar(last[0])]
  {
    SplitAt(first, last, ' ');
    assert first + " " + last == first + [' '] + last;
    SplitWord(first, ' ');
    SplitWord(last, ' ');
    HeadsAppend([first], [last]);
    HeadsCons(first, []);
    HeadsCons(last, []);
  }

  /** Extra spaces between the words add nothing. */
  lemma ExtraSpacesIgnored(a: string, b: string)
    ensures Initials(a + " " + " " + b) == Initials(a + " " + b)
  {
    var sa, sb := Split(a, ' '), Split(b, ' ');
    SplitAt(a, " " + b, ' ');
    assert a + " " + " " + b == a + [' '] + (" " + b);
    SplitAt([], b, ' ');
    assert " " + b == [] + [' '] + b;
    assert Split(" " + b, ' ') == [""] + sb;
    SplitAt(a, b, ' ');
    assert a + " " + b == a + [' '] + b;
    HeadsAppend(sa, [""] + sb);
    HeadsCons("", sb);
    HeadsAppend(sa, sb);
    assert Heads(Split(a + " " + " " + b, ' ')) == Heads(Split(a + " " + b, ' '));
  }

  /** What the avatar shows. */
  datatype Face = Image(src: string) | Letters(text: string)

  /** The render choice: a truthy `src` shows the image; otherwise a truthy
      name shows its initials and anything else '?'. */
  function Render(src: Option<string>, name: Option<string>): Face
  {
    if src.Some? && src.value != "" then Image(src.value)
    else if name.Some? && name.value != "" then Letters(Initials(name.value))
    else Letters("?")
  }

  /** A source shows the image and no initials; without one the avatar
      shows at most two characters: the initials of a name, '?' when there is
      no name, and nothing at all for a name made only of spaces. */
  lemma RenderSpec(src: Option<string>, name: Option<string>)
    ensures Render(src, name).Image? <==> src.Some? && src.value != ""
    ensures Render(src, name).Image? ==> Render(src, name) == Image(src.value)
    ensures Render(src, name).Letters? && name.Some? && name.value != "" ==>
              Render(src, name).text == Initials(name.value)
    ensures Render(src, name).Letters? ==> |Render(src, name).text| <= 2
    ensures Render(src, name).Letters? && (name.None? || name.value == "") ==> Render(src, name).text == "?"
    ensures Render(src, name).Letters? && name.Some? && name.value != "" ==>
              (Render(src, name).text == "" <==> forall i :: 0 <= i < |name.value| ==> name.value[i] == ' ')
  {
    if name.Some? && name.value != "" {
      InitialsSpec(name.value);
    }
  }
}
