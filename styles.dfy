/** The colour theme of `internal/styles`. A `Styles` object holds two theme
    colours, the accent and the foreground, and a set of styles derived from
    them; switching theme overwrites the two colours and derives every style
    again. Styles are modelled by the colours and the boldness they set, not as
    rendering objects. */
module Styles {
  import opened Common

  /** An ANSI 256-colour code, as lipgloss takes it. */
  type Color = string

  const Aquamarine: Color := "122"
  const OuterSpace: Color := "238"
  const DarkCharcoal: Color := "236"
  const StrongRed: Color := "161"
  const White: Color := "231"

  /** The colour-related settings of a style; `None` means the style leaves that
      setting alone. */
  datatype Style = Style(
    foreground: Option<Color>,
    background: Option<Color>,
    borderForeground: Option<Color>,
    bold: Option<bool>)

  /** A style that sets nothing. */
  const Plain: Style := Style(None, None, None, None)

  /** Every style of the theme, as one value. */
  datatype StyleSet = StyleSet(
    base: Style,
    boundaryText: Style,
    errorText: Style,
    highlight: Style,
    background: Style,
    tableHeader: Style,
    tableRow: Style,
    textBorder: Style,
    whitespace: Color,
    whitespaceBackground: Color)

  /** The styles `setStyles` derives from a theme. */
  function Derive(accent: Color, foreground: Color): (d: StyleSet)
  {
    StyleSet(
      base := Plain,
      boundaryText := Style(Some(accent), None, None, Some(true)),
      errorText := Style(None, None, Some(accent), None),
      highlight := Style(Some(accent), None, None, None),
      background := Style(Some(OuterSpace), None, None, None),
      tableHeader := Style(None, None, Some(OuterSpace), Some(false)),
      tableRow := Style(Some(foreground), Some(accent), None, Some(false)),
      textBorder := Style(None, None, Some(OuterSpace), None),
      whitespace := accent,
      whitespaceBackground := DarkCharcoal)
  }

  /** The accent colours the highlight, the boundary text, the error border and
      the whitespace filler; the selected table row is the foreground on the
      accent. */
  lemma DeriveFollowsTheme(accent: Color, foreground: Color)
    ensures var d := Derive(accent, foreground);
      && d.highlight.foreground == Some(accent)
      && d.boundaryText.foreground == Some(accent)
      && d.errorText.borderForeground == Some(accent)
      && d.whitespace == accent
      && d.tableRow.foreground == Some(foreground)
      && d.tableRow.background == Some(accent)
  {
  }

  /** The background text, the table header border and the text input border
      are the same colour whatever the theme. */
  lemma DeriveFixedParts(a1: Color, f1: Color, a2: Color, f2: Color)
    ensures var d1, d2 := Derive(a1, f1), Derive(a2, f2);
      && d1.background == d2.background && d1.background.foreground == Some(OuterSpace)
      && d1.tableHeader == d2.tableHeader && d1.tableHeader.borderForeground == Some(OuterSpace)
      && d1.textBorder == d2.textBorder && d1.textBorder.borderForeground == Some(OuterSpace)
      && d1.base == d2.base
      && d1.whitespaceBackground == d2.whitespaceBackground
  {
  }

  /** The derived styles determine the theme: two themes give the same styles only
      when they are the same theme. */
  lemma DeriveInjective(a1: Color, f1: Color, a2: Color, f2: Color)
    requires Derive(a1, f1) == Derive(a2, f2)
    ensures a1 == a2 && f1 == f2
  {
    assert Derive(a1, f1).tableRow == Derive(a2, f2).tableRow;
  }

  class Styles {
    var base: Style
    var boundaryText: Style
    var errorText: Style
    var highlight: Style
    var background: Style
    var tableHeader: Style
    var tableRow: Style
    var textBorder: Style
    var whitespace: Color
    var whitespaceBackground: Color
    var accent: Color
    var foreground: Color

    /** The styles currently held. */
    function Current(): (r: StyleSet)
      reads this
    {
      StyleSet(base, boundaryText, errorText, highlight, background, tableHeader,
               tableRow, textBorder, whitespace, whitespaceBackground)
    }

    /** Every style agrees with the theme colours. */
    predicate Valid()
      reads this
    {
      Current() == Derive(accent, foreground)
    }

    /** The normal theme. */
    predicate IsNormal()
      reads this
    {
      accent == Aquamarine && foreground == OuterSpace
    }

    /** The error theme. */
    predicate IsError()
      reads this
    {
      accent == StrongRed && foreground == White
    }

    /** `New`: the normal theme, aquamarine on outer space. */
    constructor ()
      ensures Valid() && IsNormal()
    {
      accent := Aquamarine;
      foreground := OuterSpace;
      new;
      SetStyles();
    }

    /** `setStyles`: derive every style from the current theme colours. */
    method SetStyles()
      modifies this
      ensures accent == old(accent) && foreground == old(foreground)
      ensures Valid()
    {
      base := Plain;
      boundaryText := Style(Some(accent), None, None, Some(true));
      errorText := Style(None, None, Some(accent), None);
      highlight := Style(Some(accent), None, None, None);
      background := Style(Some(OuterSpace), None, None, None);
      tableHeader := Style(None, None, Some(OuterSpace), Some(false));
      tableRow := Style(Some(foreground), Some(accent), None, Some(false));
      textBorder := Style(None, None, Some(OuterSpace), None);
      whitespace := accent;
      whitespaceBackground := DarkCharcoal;
    }

    /** `Error`: switch to the error theme, strong red with white text. The new
        state does not depend on the old one, so calling it twice is the same as
        calling it once. */
    method Error()
      modifies this
      ensures Valid() && IsError()
    {
      accent := StrongRed;
      foreground := White;
      SetStyles();
    }

    /** `Reset`: back to the theme `New` sets up. */
    method Reset()
      modifies this
      ensures Valid() && IsNormal()
    {
      accent := Aquamarine;
      foreground := OuterSpace;
      SetStyles();
    }
  }

  /** `Error` then `Reset` leaves exactly the styles of a fresh `New`, and repeating
      either call changes nothing. */
  method ErrorThenReset(s: Styles)
    modifies s
    ensures s.Valid() && s.IsNormal()
    ensures s.Current() == Derive(Aquamarine, OuterSpace)
  {
    s.Error();
    var afterOne := s.Current();
    s.Error();
    assert s.Current() == afterOne;
    s.Reset();
    var afterReset := s.Current();
    s.Reset();
    assert s.Current() == afterReset;
    var brandNew := new Styles();
    assert s.Current() == brandNew.Current();
  }
}
