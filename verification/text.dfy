/**
 * The two string helpers of vtkdiff.cpp: the file-name suffix test and the
 * stream rendering of a vector.
 */
module Text {

  /** `stringEndsWith`: a string shorter than the ending never ends with it. */
  function StringEndsWith(str: string, ending: string): (r: bool)
    ensures |str| < |ending| ==> !r
  {
    if |str| < |ending| then false
    else str[|str| - |ending|..] == ending
  }

  /** The suffix test agrees with "`str` is something followed by `ending`". */
  lemma {:induction false} StringEndsWithIsSuffix(str: string, ending: string)
    ensures StringEndsWith(str, ending) <==> exists prefix: string :: str == prefix + ending
  {
    if StringEndsWith(str, ending) {
      var prefix := str[..|str| - |ending|];
      assert str == prefix + ending;
    }
    if exists prefix: string :: str == prefix + ending {
      var prefix: string :| str == prefix + ending;
      assert str[|str| - |ending|..] == ending;
    }
  }

  lemma SuffixExamples()
    ensures StringEndsWith("mesh.vtu", ".vtu")
    ensures !StringEndsWith("vtu", ".vtu")
    ensures !StringEndsWith("mesh.vtk", ".vtu")
  {
    assert "mesh.vtk"[4..] != ".vtu" by { assert "mesh.vtk"[4..][3] == 'k'; }
  }

  /** The elements, each as `show` renders it, separated by ", ". */
  function Joined<T>(v: seq<T>, show: T -> string): string
    requires |v| >= 1
  {
    if |v| == 1 then show(v[0])
    else Joined(v[..|v| - 1], show) + ", " + show(v[|v| - 1])
  }

  /** What `operator<<` writes for a vector: "[]", or "[x0, x1, ..., xn]". */
  function Rendered<T>(v: seq<T>, show: T -> string): string
  {
    if |v| == 0 then "[]" else "[" + Joined(v, show) + "]"
  }

  /** The total width of the rendered elements. */
  function Width<T>(v: seq<T>, show: T -> string): nat
  {
    if |v| == 0 then 0 else Width(v[..|v| - 1], show) + |show(v[|v| - 1])|
  }

  /** Every element followed by ", ": what the printing loop has written. */
  ghost function Leading<T>(v: seq<T>, show: T -> string): string
  {
    if |v| == 0 then "" else Leading(v[..|v| - 1], show) + show(v[|v| - 1]) + ", "
  }

  lemma {:induction false} LeadingThenLast<T>(v: seq<T>, show: T -> string)
    requires |v| >= 1
    ensures Leading(v[..|v| - 1], show) + show(v[|v| - 1]) == Joined(v, show)
  {
    if |v| > 1 {
      var w := v[..|v| - 1];
      assert w[..|w| - 1] == v[..|v| - 2];
      LeadingThenLast(w, show);
    }
  }

  /** n elements are rendered with n - 1 separators of two characters each. */
  lemma {:induction false} JoinedLength<T>(v: seq<T>, show: T -> string)
    requires |v| >= 1
    ensures |Joined(v, show)| == Width(v, show) + 2 * (|v| - 1)
  {
    if |v| > 1 {
      JoinedLength(v[..|v| - 1], show);
    } else {
      assert v[..0] == [];
    }
  }

  /** The shape of the rendering: bracketed, with one ", " between neighbours. */
  lemma RenderedShape<T>(v: seq<T>, show: T -> string)
    ensures |v| == 0 ==> Rendered(v, show) == "[]"
    ensures |v| == 1 ==> Rendered(v, show) == "[" + show(v[0]) + "]"
    ensures |v| > 1 ==>
              Rendered(v, show) == "[" + Joined(v[..|v| - 1], show) + ", " + show(v[|v| - 1]) + "]"
  {
    if |v| > 1 {
      var init := Joined(v[..|v| - 1], show);
      var last := show(v[|v| - 1]);
      assert Joined(v, show) == init + ", " + last;
      assert "[" + (init + ", " + last) + "]" == "[" + init + ", " + last + "]";
    }
  }

  /** A non-empty rendering is two brackets, the elements and n - 1 separators long. */
  lemma RenderedLength<T>(v: seq<T>, show: T -> string)
    requires |v| >= 1
    ensures |Rendered(v, show)| == Width(v, show) + 2 * (|v| - 1) + 2
  {
    JoinedLength(v, show);
    assert |Rendered(v, show)| == |Joined(v, show)| + 2;
  }

  /** `operator<<(os, vector)`: appends the rendering of `v` to the stream `os`. */
  method WriteVector<T>(os: string, v: seq<T>, show: T -> string) returns (out: string)
    ensures out == os + Rendered(v, show)
  {
    if |v| == 0 {
      return os + "[]";
    }
    var start := os + "[";
    out := start;
    var size := |v|;
    for i := 0 to size - 1
      invariant out == start + Leading(v[..i], show)
    {
      var item := show(v[i]) + ", ";
      assert v[..i + 1][..i] == v[..i];
      assert Leading(v[..i + 1], show) == Leading(v[..i], show) + item;
      out := out + item;
    }
    LeadingThenLast(v, show);
    var last := show(v[size - 1]);
    out := out + last + "]";
    assert out == os + ("[" + (Leading(v[..size - 1], show) + last) + "]");
  }
}
