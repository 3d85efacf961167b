/**
 * The gradient and class construction of app/components/GradientText.tsx: the colour
 * list is doubled (so the animated background can shift by half its width without a
 * seam), joined with ", " inside `linear-gradient(90deg, ...)`, and the class string is
 * composed from a fixed class, an optional border class and the caller's classes.
 */
module GradientText {
  import opened Wrappers

  const ColorSeparator: string := ", "
  const GradientOpen: string := "linear-gradient(90deg, "
  const GradientClose: string := ")"

  const BaseClass: string := "gradient-text"
  const BorderClass: string := "gradient-text--border"

  const DefaultAnimationSpeed: real := 8.0
  const DefaultShowBorder: bool := false
  const DefaultClassName: string := ""

  /** Total length of the strings in `xs`. */
  function SumLengths(xs: seq<string>): (n: nat)
  {
    if xs == [] then 0 else |xs[0]| + SumLengths(xs[1..])
  }

  /**
   * `Array.prototype.join`: the elements with `sep` between neighbours; the empty list
   * gives the empty string and a single element gives itself.
   */
  function Join(xs: seq<string>, sep: string): (r: string)
    ensures |r| == SumLengths(xs) + (if xs == [] then 0 else (|xs| - 1) * |sep|)
    ensures |xs| == 1 ==> r == xs[0]
    decreases |xs|
  {
    if xs == [] then ""
    else if |xs| == 1 then xs[0]
    else xs[0] + sep + Join(xs[1..], sep)
  }

  /** Where element `i` of `xs` begins in `Join(xs, sep)`. */
  function Start(xs: seq<string>, sep: string, i: nat): (n: nat)
    requires i <= |xs|
    decreases i
  {
    if i == 0 then 0 else |xs[0]| + |sep| + Start(xs[1..], sep, i - 1)
  }

  /** Element `i` of `xs` occurs in the joined string at `Start(xs, sep, i)`. */
  lemma {:induction false} JoinAt(xs: seq<string>, sep: string, i: nat)
    requires i < |xs|
    ensures Start(xs, sep, i) + |xs[i]| <= |Join(xs, sep)|
    ensures Join(xs, sep)[Start(xs, sep, i)..Start(xs, sep, i) + |xs[i]|] == xs[i]
    decreases i
  {
    var j := Join(xs, sep);
    if i == 0 {
      if |xs| > 1 {
        assert j == xs[0] + (sep + Join(xs[1..], sep));
      }
      assert j[..|xs[0]|] == xs[0];
    } else {
      var rest := Join(xs[1..], sep);
      var k := |xs[0]| + |sep|;
      assert j == (xs[0] + sep) + rest;
      JoinAt(xs[1..], sep, i - 1);
      var s := Start(xs[1..], sep, i - 1);
      assert j[k + s..k + s + |xs[i]|] == rest[s..s + |xs[i]|];
    }
  }

  /** Elements begin in list order, each followed by a separator before the next. */
  lemma {:induction false} StartOrdered(xs: seq<string>, sep: string, i: nat, j: nat)
    requires i < j < |xs|
    ensures Start(xs, sep, i) + |xs[i]| + |sep| <= Start(xs, sep, j)
    decreases j
  {
    if i > 0 {
      StartOrdered(xs[1..], sep, i - 1, j - 1);
    } else if j > 1 {
      StartOrdered(xs[1..], sep, 0, j - 1);
    }
  }

  /** Between element `i` and element `i + 1` the joined string holds exactly `sep`. */
  lemma {:induction false} SeparatorFollows(xs: seq<string>, sep: string, i: nat)
    requires i + 1 < |xs|
    ensures Start(xs, sep, i) + |xs[i]| + |sep| == Start(xs, sep, i + 1)
    ensures Start(xs, sep, i + 1) <= |Join(xs, sep)|
    ensures Join(xs, sep)[Start(xs, sep, i) + |xs[i]|..Start(xs, sep, i + 1)] == sep
    decreases i
  {
    var j := Join(xs, sep);
    var rest := Join(xs[1..], sep);
    var k := |xs[0]| + |sep|;
    assert j == (xs[0] + sep) + rest;
    if i == 0 {
      assert j[|xs[0]|..k] == sep;
    } else {
      SeparatorFollows(xs[1..], sep, i - 1);
      var s := Start(xs[1..], sep, i - 1) + |xs[i]|;
      assert j[k + s..k + s + |sep|] == rest[s..s + |sep|];
    }
  }

  /** Joining two non-empty lists is joining each and putting one separator between. */
  lemma {:induction false} JoinAppend(xs: seq<string>, ys: seq<string>, sep: string)
    requires xs != [] && ys != []
    ensures Join(xs + ys, sep) == Join(xs, sep) + sep + Join(ys, sep)
    decreases |xs|
  {
    if |xs| == 1 {
      assert (xs + ys)[1..] == ys;
    } else {
      assert (xs + ys)[1..] == xs[1..] + ys;
      JoinAppend(xs[1..], ys, sep);
    }
  }

  /** `[...colors, ...colors]`: twice as long, and each half is the list itself. */
  function Doubled(colors: seq<string>): (d: seq<string>)
    ensures |d| == 2 * |colors|
    ensures d[..|colors|] == colors && d[|colors|..] == colors
  {
    colors + colors
  }

  /** The `backgroundImage` value. */
  function Gradient(colors: seq<string>): (g: string)
    ensures |GradientOpen| + 1 <= |g|
    ensures g[..|GradientOpen|] == GradientOpen && g[|g| - 1] == ')'
  {
    GradientOpen + Join(Doubled(colors), ColorSeparator) + GradientClose
  }

  /** The gradient lists the colours, then a separator, then the colours again; with no
      colours at all it is `linear-gradient(90deg, )`. */
  lemma {:induction false} GradientRepeatsList(colors: seq<string>)
    ensures colors == [] ==> Gradient(colors) == "linear-gradient(90deg, )"
    ensures colors != [] ==>
      Gradient(colors) == GradientOpen + Join(colors, ColorSeparator) + ColorSeparator
                          + Join(colors, ColorSeparator) + GradientClose
  {
    if colors == [] {
      assert Doubled(colors) == [];
      assert Gradient(colors) == GradientOpen + GradientClose;
    } else {
      JoinAppend(colors, colors, ColorSeparator);
      Regroup(GradientOpen, Join(colors, ColorSeparator), ColorSeparator, GradientClose);
    }
  }

  /** Moving the brackets of `a + (m + b + m) + c`. */
  lemma Regroup(a: string, m: string, b: string, c: string)
    ensures a + (m + b + m) + c == a + m + b + m + c
  {
  }

  /**
   * Colour `i` occurs in the gradient inside the first copy of the list, and again at
   * the same place inside the second copy, which starts after the first copy and a
   * separator.
   */
  lemma {:induction false} GradientListsColorsTwice(colors: seq<string>, i: nat)
    requires i < |colors|
    ensures Start(colors, ColorSeparator, i) + |colors[i]| <= |Join(colors, ColorSeparator)|
    ensures OccursAt(Gradient(colors), colors[i], |GradientOpen| + Start(colors, ColorSeparator, i))
    ensures OccursAt(Gradient(colors), colors[i],
                     |GradientOpen| + |Join(colors, ColorSeparator)| + |ColorSeparator| + Start(colors, ColorSeparator, i))
  {
    JoinAt(colors, ColorSeparator, i);
    GradientRepeatsList(colors);
    OccursInBothCopies(Gradient(colors), GradientOpen, Join(colors, ColorSeparator), ColorSeparator, GradientClose,
                       colors[i], Start(colors, ColorSeparator, i));
  }

  /** An occurrence in `m` shows up in both copies of `m` inside `w == a + m + b + m + c`. */
  lemma OccursInBothCopies(w: string, a: string, m: string, b: string, c: string, t: string, i: int)
    requires w == a + m + b + m + c
    requires OccursAt(m, t, i)
    ensures OccursAt(w, t, |a| + i)
    ensures OccursAt(w, t, |a| + |m| + |b| + i)
  {
    assert w == a + (m + (b + m + c));
    OccursBefore(m, b + m + c, t, i);
    OccursAfter(a, m + (b + m + c), t, i);
    assert w == (a + m + b) + (m + c);
    OccursBefore(m, c, t, i);
    OccursAfter(a + m + b, m + c, t, i);
  }

  /** An occurrence in `b` is an occurrence in `b + c`, at the same index. */
  lemma OccursBefore(b: string, c: string, t: string, i: int)
    requires OccursAt(b, t, i)
    ensures OccursAt(b + c, t, i)
  {
    assert (b + c)[i..i + |t|] == b[i..i + |t|];
  }

  /** An occurrence in `b` is an occurrence in `a + b`, shifted by `|a|`. */
  lemma OccursAfter(a: string, b: string, t: string, i: int)
    requires OccursAt(b, t, i)
    ensures OccursAt(a + b, t, |a| + i)
  {
    assert (a + b)[|a| + i..|a| + i + |t|] == b[i..i + |t|];
  }

  /** `t` occurs somewhere in `s`. */
  predicate Contains(s: string, t: string)
  {
    exists i :: 0 <= i <= |s| && OccursAt(s, t, i)
  }

  /** `t` occurs in `s` starting at index `i`. */
  predicate OccursAt(s: string, t: string, i: int)
  {
    0 <= i && i + |t| <= |s| && s[i..i + |t|] == t
  }

  /** The `className` value: base class, the border class or nothing, then the caller's. */
  function ClassName(showBorder: bool, className: string): (r: string)
    ensures |r| == |BaseClass| + 2 + (if showBorder then |BorderClass| else 0) + |className|
    ensures r[..|BaseClass| + 1] == BaseClass + " "
    ensures r[|r| - |className|..] == className
  {
    BaseClass + " " + (if showBorder then BorderClass else "") + " " + className
  }

  /** The border class appears exactly when it is asked for, or when the caller's own
      classes already carry it. */
  lemma {:induction false} ClassNameBorderIff(showBorder: bool, className: string)
    ensures Contains(ClassName(showBorder, className), BorderClass)
        <==> showBorder || Contains(className, BorderClass)
  {
    var r := ClassName(showBorder, className);
    if showBorder {
      BorderShown(className);
      assert OccursAt(r, BorderClass, |BaseClass| + 1);
    }
    if Contains(className, BorderClass) {
      var i :| 0 <= i <= |className| && OccursAt(className, BorderClass, i);
      CallerClassesKept(showBorder, className, BorderClass, i);
      assert OccursAt(r, BorderClass, |r| - |className| + i);
    }
    if !showBorder && Contains(r, BorderClass) {
      var i :| 0 <= i <= |r| && OccursAt(r, BorderClass, i);
      BorderOnlyFromCaller(className, i);
      assert OccursAt(className, BorderClass, i - (|BaseClass| + 2));
    }
  }

  /** With `showBorder`, the border class follows the base class and its space. */
  lemma BorderShown(className: string)
    ensures OccursAt(ClassName(true, className), BorderClass, |BaseClass| + 1)
  {
    var r := ClassName(true, className);
    assert r == (BaseClass + " ") + (BorderClass + (" " + className));
    OccursBefore(BorderClass, " " + className, BorderClass, 0);
    OccursAfter(BaseClass + " ", BorderClass + (" " + className), BorderClass, 0);
  }

  /** The caller's classes end the class string, so whatever occurs in them occurs there. */
  lemma CallerClassesKept(showBorder: bool, className: string, t: string, i: int)
    requires OccursAt(className, t, i)
    ensures OccursAt(ClassName(showBorder, className), t, |ClassName(showBorder, className)| - |className| + i)
  {
    var head := BaseClass + " " + (if showBorder then BorderClass else "") + " ";
    OccursAfter(head, className, t, i);
  }

  /** Without `showBorder`, an occurrence of the border class lies inside the caller's
      classes: the fixed part `"gradient-text  "` cannot hold one, nor straddle its end,
      because it ends in a space and the border class has none. */
  lemma BorderOnlyFromCaller(className: string, i: int)
    requires OccursAt(ClassName(false, className), BorderClass, i)
    ensures OccursAt(className, BorderClass, i - (|BaseClass| + 2))
  {
    var r := ClassName(false, className);
    var head := BaseClass + "  ";
    assert r == head + className;
    var n := |BorderClass|;
    BorderClassHasNoSpace();
    assert r[|head| - 1] == ' ';
    OccurrenceAvoidsSpace(r, BorderClass, i, |head| - 1);
    assert className[i - |head|..i - |head| + n] == r[i..i + n];
  }

  /** The border class is a single class name: it holds no space. */
  lemma BorderClassHasNoSpace()
    ensures forall k :: 0 <= k < |BorderClass| ==> BorderClass[k] != ' '
  {
  }

  /** An occurrence of a space-free `t` does not cover a space of `s`. */
  lemma OccurrenceAvoidsSpace(s: string, t: string, i: int, p: int)
    requires OccursAt(s, t, i) && 0 <= p < |s| && s[p] == ' '
    requires forall k :: 0 <= k < |t| ==> t[k] != ' '
    ensures p < i || i + |t| <= p
  {
    assert forall q :: i <= q < i + |t| ==> s[q] == s[i..i + |t|][q - i];
  }

  /** The props as the caller passes them; `None` is a prop left `undefined`. */
  datatype GradientProps = GradientProps(
    colors: seq<string>,
    animationSpeed: Option<real>,
    showBorder: Option<bool>,
    className: Option<string>)

  /** What the span receives: its class string, background image and animation duration. */
  datatype Rendered = Rendered(className: string, backgroundImage: string, animationDurationSeconds: real)

  /** The span's attributes, with the parameter defaults applied. */
  function Render(p: GradientProps): (r: Rendered)
    ensures r.backgroundImage == Gradient(p.colors)
    ensures p.animationSpeed == None ==> r.animationDurationSeconds == 8.0
    ensures p.animationSpeed.Some? ==> r.animationDurationSeconds == p.animationSpeed.value
    ensures p.showBorder == None && p.className == None ==> r.className == "gradient-text  "
    ensures |p.className.GetOr("")| <= |r.className|
    ensures r.className[|r.className| - |p.className.GetOr("")|..] == p.className.GetOr("")
    ensures Contains(r.className, BorderClass) <==> p.showBorder == Some(true) || Contains(p.className.GetOr(""), BorderClass)
  {
    var showBorder := p.showBorder.GetOr(DefaultShowBorder);
    var className := p.className.GetOr(DefaultClassName);
    ClassNameBorderIff(showBorder, className);
    Rendered(ClassName(showBorder, className), Gradient(p.colors), p.animationSpeed.GetOr(DefaultAnimationSpeed))
  }
}
