/**
 * Rendered HTML as the sequence of pieces a renderer concatenates.  A `Tag`
 * is a fragment of fixed template markup, named by the renderer's own markup
 * type `M` and spelled out by its `spell` function; `Esc` is user text passed
 * through `htmlspecialchars`/`escapeHtml`, `Attr` is user text passed through
 * Node's `escapeAttr`, and `Raw` is user text inserted verbatim.  The string
 * a renderer returns is `Flatten` of its pieces.
 */
module Html {
  import opened HtmlEscape

  datatype Piece<M> = Tag(markup: M) | Esc(text: string) | Attr(text: string) | Raw(text: string)

  function PieceText<M>(p: Piece<M>, spell: M -> string): string {
    match p
    case Tag(m) => spell(m)
    case Esc(t) => Escape(t)
    case Attr(t) => EscapeAttr(t)
    case Raw(t) => t
  }

  /** The string the pieces concatenate to (`.=` in PHP, template literals and `join('')` in Node). */
  function Flatten<M>(ps: seq<Piece<M>>, spell: M -> string): string {
    if ps == [] then "" else Flatten(ps[..|ps| - 1], spell) + PieceText(ps[|ps| - 1], spell)
  }

  lemma {:induction false} FlattenConcat<M>(a: seq<Piece<M>>, b: seq<Piece<M>>, spell: M -> string)
    ensures Flatten(a + b, spell) == Flatten(a, spell) + Flatten(b, spell)
    decreases |b|
  {
    if b == [] {
      assert a + b == a;
    } else {
      var b' := b[..|b| - 1];
      assert (a + b)[..|a + b| - 1] == a + b';
      FlattenConcat(a, b', spell);
    }
  }

  lemma FlattenSingleton<M>(p: Piece<M>, spell: M -> string)
    ensures Flatten([p], spell) == PieceText(p, spell)
  {
    assert [p][..0] == [];
  }

  /** Fixed markup at the front of a rendering is a prefix of its text. */
  lemma FlattenStartsWithTag<M>(m: M, rest: seq<Piece<M>>, spell: M -> string)
    ensures spell(m) <= Flatten([Tag(m)] + rest, spell)
  {
    FlattenConcat([Tag(m)], rest, spell);
    FlattenSingleton(Tag(m), spell);
  }

  /** The user-supplied texts of the pieces, in output order (everything but fixed markup). */
  function Texts<M>(ps: seq<Piece<M>>): seq<string> {
    if ps == [] then []
    else Texts(ps[..|ps| - 1]) + (if ps[|ps| - 1].Tag? then [] else [ps[|ps| - 1].text])
  }

  lemma {:induction false} TextsConcat<M>(a: seq<Piece<M>>, b: seq<Piece<M>>)
    ensures Texts(a + b) == Texts(a) + Texts(b)
    decreases |b|
  {
    if b == [] {
      assert a + b == a;
    } else {
      var b' := b[..|b| - 1];
      assert (a + b)[..|a + b| - 1] == a + b';
      TextsConcat(a, b');
    }
  }

  lemma TextsSnoc<M>(ps: seq<Piece<M>>, p: Piece<M>)
    ensures Texts(ps + [p]) == Texts(ps) + (if p.Tag? then [] else [p.text])
  {
    assert (ps + [p])[..|ps|] == ps;
  }

  /** One rendering per list item, concatenated in list order (a `foreach` with `.=`, or `map(...).join('')`). */
  function Join<T, M>(xs: seq<T>, f: T -> seq<Piece<M>>): seq<Piece<M>> {
    if xs == [] then [] else Join(xs[..|xs| - 1], f) + f(xs[|xs| - 1])
  }

  lemma JoinSnoc<T, M>(xs: seq<T>, x: T, f: T -> seq<Piece<M>>)
    ensures Join(xs + [x], f) == Join(xs, f) + f(x)
  {
    assert (xs + [x])[..|xs|] == xs;
  }

  /** Fixed markup that opens every item's rendering opens the whole list's rendering. */
  lemma {:induction false} JoinStartsWith<T, M>(xs: seq<T>, f: T -> seq<Piece<M>>, head: string, spell: M -> string)
    requires xs != []
    requires forall x :: x in xs ==> head <= Flatten(f(x), spell)
    ensures head <= Flatten(Join(xs, f), spell)
  {
    var init, last := xs[..|xs| - 1], xs[|xs| - 1];
    FlattenConcat(Join(init, f), f(last), spell);
    if init != [] {
      forall x | x in init ensures head <= Flatten(f(x), spell) {
        assert x in xs;
      }
      JoinStartsWith(init, f, head, spell);
    }
  }

  /** A piece that no item's rendering contains is not in the list's rendering. */
  lemma {:induction false} JoinExcludes<T, M>(xs: seq<T>, f: T -> seq<Piece<M>>, p: Piece<M>)
    requires forall x :: x in xs ==> p !in f(x)
    ensures p !in Join(xs, f)
  {
    if xs != [] {
      var init := xs[..|xs| - 1];
      forall x | x in init ensures p !in f(x) {
        assert x in xs;
      }
      JoinExcludes(init, f, p);
    }
  }

  /** A piece of the list's rendering comes from some item's rendering. */
  lemma {:induction false} JoinMember<T, M>(xs: seq<T>, f: T -> seq<Piece<M>>, q: Piece<M>)
    requires q in Join(xs, f)
    ensures exists x :: x in xs && q in f(x)
  {
    var init, last := xs[..|xs| - 1], xs[|xs| - 1];
    if q !in f(last) {
      JoinMember(init, f, q);
      var x :| x in init && q in f(x);
      assert x in xs;
    }
  }

  /** Every piece of an item's rendering is in the list's rendering. */
  lemma {:induction false} JoinContains<T, M>(xs: seq<T>, f: T -> seq<Piece<M>>, x: T, q: Piece<M>)
    requires x in xs && q in f(x)
    ensures q in Join(xs, f)
  {
    var init, last := xs[..|xs| - 1], xs[|xs| - 1];
    if x != last {
      assert xs == init + [last];
      JoinContains(init, f, x, q);
    }
  }

  /** The number of occurrences of piece `p` in the rendering of a list is the sum over its items. */
  lemma JoinCount<T, M>(xs: seq<T>, x: T, f: T -> seq<Piece<M>>, p: Piece<M>)
    ensures multiset(Join(xs + [x], f))[p] == multiset(Join(xs, f))[p] + multiset(f(x))[p]
  {
    JoinSnoc(xs, x, f);
  }

  /** `t` occurs in `s` as a contiguous substring. */
  predicate IsInfix(t: string, s: string) {
    exists k :: 0 <= k <= |s| && t <= s[k..]
  }

  lemma InfixConcat(a: string, t: string, b: string)
    ensures IsInfix(t, a + t + b)
  {
    var s := a + t + b;
    assert s[|a|..] == t + b;
  }

  lemma InfixExtend(t: string, s: string, a: string, b: string)
    requires IsInfix(t, s)
    ensures IsInfix(t, a + s + b)
  {
    var k :| 0 <= k <= |s| && t <= s[k..];
    var s' := a + s + b;
    assert s'[|a| + k..] == s[k..] + b;
  }

  lemma FlattenTriple<M>(p: Piece<M>, q: Piece<M>, r: Piece<M>, spell: M -> string)
    ensures Flatten([p, q, r], spell) == PieceText(p, spell) + PieceText(q, spell) + PieceText(r, spell)
  {
    assert [p, q, r][..2] == [p, q];
    assert [p, q][..1] == [p];
    FlattenSingleton(p, spell);
  }

  /** A text occurring in the middle part's text occurs in the whole rendering's text. */
  lemma FlattenInfix<M>(a: seq<Piece<M>>, b: seq<Piece<M>>, c: seq<Piece<M>>, t: string, spell: M -> string)
    requires IsInfix(t, Flatten(b, spell))
    ensures IsInfix(t, Flatten(a + b + c, spell))
  {
    FlattenConcat(a + b, c, spell);
    FlattenConcat(a, b, spell);
    InfixExtend(t, Flatten(b, spell), Flatten(a, spell), Flatten(c, spell));
  }

  /**
   * A list helper: the placeholder for an empty list (`empty($list)` in
   * PHP, `!items || items.length === 0` in Node), otherwise one rendering
   * per item.
   */
  function ListPieces<T, M>(xs: seq<T>, f: T -> seq<Piece<M>>, placeholder: M): seq<Piece<M>> {
    if xs == [] then [Tag(placeholder)] else Join(xs, f)
  }

  /**
   * A non-empty list never renders as its placeholder: every item's
   * markup opens with a fragment longer than the placeholder.
   */
  lemma NotPlaceholder<T, M>(xs: seq<T>, f: T -> seq<Piece<M>>, open: M, placeholder: M, spell: M -> string)
    requires xs != [] && |spell(placeholder)| < |spell(open)|
    requires forall x :: x in xs ==> f(x) != [] && f(x)[0] == Tag(open)
    ensures Flatten(Join(xs, f), spell) != spell(placeholder)
  {
    forall x | x in xs ensures spell(open) <= Flatten(f(x), spell) {
      assert f(x) == [Tag(open)] + f(x)[1..];
      FlattenStartsWithTag(open, f(x)[1..], spell);
    }
    JoinStartsWith(xs, f, spell(open), spell);
  }

  /** The placeholder is the output exactly when the list is empty. */
  lemma PlaceholderIffEmpty<T, M>(xs: seq<T>, f: T -> seq<Piece<M>>, open: M, placeholder: M, spell: M -> string)
    requires |spell(placeholder)| < |spell(open)|
    requires forall x :: x in xs ==> f(x) != [] && f(x)[0] == Tag(open)
    ensures Flatten(ListPieces(xs, f, placeholder), spell) == spell(placeholder) <==> xs == []
  {
    if xs == [] {
      FlattenSingleton(Tag(placeholder), spell);
    } else {
      NotPlaceholder(xs, f, open, placeholder, spell);
    }
  }

  /** The `foreach` loop of the PHP list helpers: `$html .= <item>` for each item in order. */
  method AppendEach<T, M>(xs: seq<T>, f: T -> seq<Piece<M>>, spell: M -> string) returns (html: string)
    ensures html == Flatten(Join(xs, f), spell)
  {
    html := "";
    for i := 0 to |xs|
      invariant html == Flatten(Join(xs[..i], f), spell)
    {
      JoinSnoc(xs[..i], xs[i], f);
      FlattenConcat(Join(xs[..i], f), f(xs[i]), spell);
      assert xs[..i + 1] == xs[..i] + [xs[i]];
      html := html + Flatten(f(xs[i]), spell);
    }
    assert xs[..|xs|] == xs;
  }

  /** Occurrences in a concatenation add up. */
  lemma CountConcat<T>(a: seq<T>, b: seq<T>, x: T)
    ensures multiset(a + b)[x] == multiset(a)[x] + multiset(b)[x]
  {
  }
}
