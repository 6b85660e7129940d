/** The pure helpers of the contacts list: the avatar initials, the avatar
    colour and the group filter. The contact details dialog carries
    character-for-character copies of the first two and uses these. */
module ContactsTab {
  import opened Wrappers
  import opened Schema
  import Text
  import Collections

  // ---------------------------------------------------------------------
  // Initials
  // ---------------------------------------------------------------------

  /** `ws.map(word => word[0]).join("")`: the first character of each word;
      an empty word has no first character (`undefined`), which `join`
      renders as nothing. */
  function FirstChars(ws: seq<string>): (r: string)
    ensures |r| <= |ws|
    ensures (forall i :: 0 <= i < |ws| ==> ws[i] != []) ==>
      |r| == |ws| && forall i :: 0 <= i < |ws| ==> r[i] == ws[i][0]
  {
    if ws == [] then []
    else (if ws[0] == [] then [] else [ws[0][0]]) + FirstChars(ws[1..])
  }

  /** `s.slice(0, 2)` */
  function Take2(s: string): (r: string)
    ensures |r| == (if |s| < 2 then |s| else 2) && r <= s
    ensures |s| <= 2 ==> r == s
  {
    if |s| <= 2 then s else s[..2]
  }

  /** `getContactInitials(name)`: split at single spaces, first characters,
      upper-cased, at most two of them. */
  function Initials(name: string): (r: string)
    ensures |r| <= 2
  {
    Take2(Text.Upper(FirstChars(Text.Split(name, ' '))))
  }

  /** The characters of `s` that start a word: not a space, and at the start
      of `s` (when `atStart`) or right after a space. */
  function WordStarts(s: string, atStart: bool): string {
    if s == [] then []
    else if s[0] == ' ' then WordStarts(s[1..], true)
    else (if atStart then [s[0]] else []) + WordStarts(s[1..], false)
  }

  /** The first characters of the words `split(" ")` produces are exactly the
      characters that start a word; runs of spaces add nothing. The second
      half covers every word after the first. */
  lemma {:induction false} FirstCharsAreWordStarts(s: string)
    ensures FirstChars(Text.Split(s, ' ')) == WordStarts(s, true)
    ensures FirstChars(Text.Split(s, ' ')[1..]) == WordStarts(s, false)
  {
    if s != [] {
      FirstCharsAreWordStarts(s[1..]);
      var rest := Text.Split(s[1..], ' ');
      if s[0] == ' ' {
        assert Text.Split(s, ' ') == [[]] + rest;
        assert ([[]] + rest)[1..] == rest;
      } else {
        var first := [s[0]] + rest[0];
        assert Text.Split(s, ' ') == [first] + rest[1..];
        assert ([first] + rest[1..])[1..] == rest[1..];
      }
    }
  }

  /** The initials are the first two word-starting characters of the name,
      upper-cased. */
  lemma InitialsAreWordStarts(name: string)
    ensures Initials(name) == Take2(Text.Upper(WordStarts(name, true)))
  {
    FirstCharsAreWordStarts(name);
  }

  // ---------------------------------------------------------------------
  // Colour
  // ---------------------------------------------------------------------

  const Palette: seq<string> := ["bg-primary", "bg-secondary", "bg-accent"]

  /** `getContactBgColor(name)`: the palette entry picked by the first
      character's code modulo three. On the empty name `charCodeAt(0)` is
      NaN and the lookup gives `undefined`, which is `None` here. */
  function BgColor(name: string): (r: Option<string>)
    ensures r.None? <==> name == []
    ensures r.Some? ==> r.value in Palette
    ensures r.Some? ==> r.value == Palette[name[0] as int % |Palette|]
  {
    if name == [] then None else Some(Palette[name[0] as int % 3])
  }

  /** The colour depends on nothing but the first character. */
  lemma SameFirstCharSameColor(a: string, b: string)
    requires a != [] && b != [] && a[0] == b[0]
    ensures BgColor(a) == BgColor(b)
  {
  }

  // ---------------------------------------------------------------------
  // The group filter
  // ---------------------------------------------------------------------

  datatype ContactFilter = All | Favorites | Recent

  /** `contact.isFavorite` is truthy: set and true. */
  predicate IsFavorite(c: Contact) {
    c.isFavorite == Some(true)
  }

  /** `filteredContacts`: "favorites" keeps the favourites, "all" and
      "recent" keep every contact; either way the order is kept. */
  function FilterContacts(cs: seq<Contact>, f: ContactFilter): (r: seq<Contact>)
    ensures Collections.SubsequenceOf(r, cs)
    ensures f != Favorites ==> r == cs
    ensures f == Favorites ==> forall c :: c in r <==> c in cs && IsFavorite(c)
    ensures forall c :: multiset(r)[c] == if f == Favorites && !IsFavorite(c) then 0 else multiset(cs)[c]
  {
    var keep := (c: Contact) => f != Favorites || IsFavorite(c);
    Collections.FilterPreservesOrder(cs, keep);
    if f != Favorites then
      Collections.FilterAll(cs, keep);
      Collections.Filter(cs, keep)
    else
      Collections.Filter(cs, keep)
  }
}
