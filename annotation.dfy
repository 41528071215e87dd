/**
 * The annotation canvas: a stroke being drawn as SVG path text, and the stack
 * of finished strokes with undo and clear.
 */
module Annotation {
  import opened Js

  /** `M{x},{y}`: the start of a stroke. */
  function MoveTo(x: int, y: int): (r: string)
    ensures r != [] && r[0] == 'M'
  {
    "M" + IntToString(x) + "," + IntToString(y)
  }

  /** ` L{x},{y}`: one more point of a stroke. */
  function LineTo(x: int, y: int): (r: string)
    ensures |r| >= 4 && r[..2] == " L"
  {
    " L" + IntToString(x) + "," + IntToString(y)
  }

  /**
   * What a release commits: the strokes so far stay in place, and one more
   * stroke, the one in progress, is added exactly when it is not empty.
   */
  function Committed(paths: seq<string>, current: string): (r: seq<string>)
    ensures |paths| <= |r| <= |paths| + 1 && r[..|paths|] == paths
    ensures |r| == |paths| + 1 <==> current != ""
    ensures |r| == |paths| + 1 ==> r[|paths|] == current
  {
    if current != "" then paths + [current] else paths
  }

  /**
   * `prev.slice(0, -1)`: one stroke fewer when there is one, none on an empty
   * stack, and the strokes that remain are the earlier ones, in place.
   */
  function Undone(paths: seq<string>): (r: seq<string>)
    ensures |r| == if |paths| == 0 then 0 else |paths| - 1
    ensures r == paths[..|r|]
  {
    if |paths| == 0 then [] else paths[..|paths| - 1]
  }

  /** Undo takes back exactly the stroke a release committed. */
  lemma UndoAfterRelease(paths: seq<string>, current: string)
    requires current != ""
    ensures Undone(Committed(paths, current)) == paths
  {
    assert (paths + [current])[..|paths|] == paths;
  }

  /** The canvas cells. */
  class Canvas {
    var paths: seq<string>
    var currentPath: string

    /** Only non-empty strokes are ever committed. */
    ghost predicate Valid()
      reads this
    {
      forall i :: 0 <= i < |paths| ==> paths[i] != ""
    }

    constructor ()
      ensures Valid() && paths == [] && currentPath == ""
    {
      paths := [];
      currentPath := "";
    }

    /** `onPanResponderGrant`: a new stroke starts at the touch point. */
    method Grant(x: int, y: int)
      requires Valid()
      modifies this`currentPath
      ensures Valid()
      ensures currentPath == MoveTo(x, y)
    {
      currentPath := MoveTo(x, y);
    }

    /** `onPanResponderMove`: the stroke is extended by a line to the touch point. */
    method Move(x: int, y: int)
      requires Valid()
      modifies this`currentPath
      ensures Valid()
      ensures currentPath == old(currentPath) + LineTo(x, y)
    {
      currentPath := currentPath + LineTo(x, y);
    }

    /** `onPanResponderRelease`: a non-empty stroke is pushed; the stroke in progress is reset. */
    method Release()
      requires Valid()
      modifies this
      ensures Valid()
      ensures paths == Committed(old(paths), old(currentPath)) && currentPath == ""
    {
      paths := Committed(paths, currentPath);
      currentPath := "";
    }

    /** `handleUndo`. */
    method Undo()
      requires Valid()
      modifies this`paths
      ensures Valid()
      ensures paths == Undone(old(paths))
    {
      paths := Undone(paths);
    }

    /** `handleClear`: no strokes and nothing in progress. */
    method Clear()
      requires Valid()
      modifies this
      ensures Valid()
      ensures paths == [] && currentPath == ""
    {
      paths := [];
      currentPath := "";
    }
  }

  /** One stroke from (10, 20) to (30, 40), then undone: the canvas is blank again. */
  method StrokeThenUndo() returns (c: Canvas)
    ensures c.paths == [] && c.currentPath == ""
  {
    c := new Canvas();
    c.Grant(10, 20);
    c.Move(30, 40);
    assert c.currentPath != "";
    c.Release();
    c.Undo();
    UndoAfterRelease([], MoveTo(10, 20) + LineTo(30, 40));
  }
}
