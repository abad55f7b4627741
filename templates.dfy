/** The table `aiDrawingTemplates` (static/script.js:500-744), in the order the source
    lists it, and the lookup behind the voice command `draw <name>` (lines 444-447). */
module Templates {
  import opened Strokes

  datatype Template = Template(name: string, points: seq<Point>)

  datatype Option<T> = None | Some(value: T)

  /** The 23 templates, in the order the source lists them. */
  const Table: seq<Template> := [
    Circle, Ellipse, Rectangle, Parallelogram, Trapezoid, Crescent, Arrow, Diamond,
    Infinity, Triangle, Square, Pentagon, Hexagon, Octagon, Star, Cross, Leaf, Cloud,
    Heart, Spiral, Fractal, House, Pyramid
  ]

  // The templates, with the coordinates the source gives them.

  // lines 501-511
  const Circle: Template := Template("circle", [
    Point(320.0, 100.0), Point(390.0, 130.0), Point(420.0, 200.0), Point(390.0, 270.0),
    Point(320.0, 300.0), Point(250.0, 270.0), Point(220.0, 200.0), Point(250.0, 130.0),
    Point(320.0, 100.0)])

  // lines 514-528
  const Ellipse: Template := Template("ellipse", [
    Point(320.0, 100.0), Point(370.0, 115.0), Point(400.0, 160.0), Point(410.0, 200.0),
    Point(400.0, 240.0), Point(370.0, 285.0), Point(320.0, 300.0), Point(270.0, 285.0),
    Point(240.0, 240.0), Point(230.0, 200.0), Point(240.0, 160.0), Point(270.0, 115.0),
    Point(320.0, 100.0)])

  // lines 531-537
  const Rectangle: Template := Template("rectangle", [
    Point(220.0, 150.0), Point(420.0, 150.0), Point(420.0, 250.0), Point(220.0, 250.0),
    Point(220.0, 150.0)])

  // lines 540-546
  const Parallelogram: Template := Template("parallelogram", [
    Point(250.0, 150.0), Point(420.0, 150.0), Point(370.0, 250.0), Point(200.0, 250.0),
    Point(250.0, 150.0)])

  // lines 549-555
  const Trapezoid: Template := Template("trapezoid", [
    Point(260.0, 150.0), Point(380.0, 150.0), Point(420.0, 250.0), Point(220.0, 250.0),
    Point(260.0, 150.0)])

  // lines 558-568
  const Crescent: Template := Template("crescent", [
    Point(350.0, 100.0), Point(400.0, 150.0), Point(420.0, 200.0), Point(400.0, 250.0),
    Point(350.0, 300.0), Point(300.0, 250.0), Point(320.0, 200.0), Point(300.0, 150.0),
    Point(350.0, 100.0)])

  // lines 571-580
  const Arrow: Template := Template("arrow", [
    Point(200.0, 200.0), Point(350.0, 200.0), Point(350.0, 150.0), Point(420.0, 225.0),
    Point(350.0, 300.0), Point(350.0, 250.0), Point(200.0, 250.0), Point(200.0, 200.0)])

  // lines 583-589
  const Diamond: Template := Template("diamond", [
    Point(320.0, 100.0), Point(400.0, 200.0), Point(320.0, 300.0), Point(240.0, 200.0),
    Point(320.0, 100.0)])

  // lines 592-607
  const Infinity: Template := Template("infinity", [
    Point(270.0, 200.0), Point(250.0, 170.0), Point(220.0, 170.0), Point(200.0, 200.0),
    Point(220.0, 230.0), Point(250.0, 230.0), Point(270.0, 200.0), Point(370.0, 200.0),
    Point(390.0, 170.0), Point(420.0, 170.0), Point(440.0, 200.0), Point(420.0, 230.0),
    Point(390.0, 230.0), Point(370.0, 200.0)])

  // lines 608-613
  const Triangle: Template := Template("triangle", [
    Point(320.0, 100.0), Point(200.0, 300.0), Point(440.0, 300.0), Point(320.0, 100.0)])

  // lines 614-620
  const Square: Template := Template("square", [
    Point(200.0, 100.0), Point(440.0, 100.0), Point(440.0, 300.0), Point(200.0, 300.0),
    Point(200.0, 100.0)])

  // lines 621-628
  const Pentagon: Template := Template("pentagon", [
    Point(320.0, 100.0), Point(440.0, 180.0), Point(380.0, 300.0), Point(260.0, 300.0),
    Point(200.0, 180.0), Point(320.0, 100.0)])

  // lines 629-637
  const Hexagon: Template := Template("hexagon", [
    Point(320.0, 100.0), Point(440.0, 160.0), Point(440.0, 240.0), Point(320.0, 300.0),
    Point(200.0, 240.0), Point(200.0, 160.0), Point(320.0, 100.0)])

  // lines 638-650
  const Octagon: Template := Template("octagon", [
    Point(320.0, 100.0), Point(420.0, 140.0), Point(440.0, 220.0), Point(440.0, 280.0),
    Point(420.0, 360.0), Point(320.0, 400.0), Point(220.0, 360.0), Point(200.0, 280.0),
    Point(200.0, 220.0), Point(220.0, 140.0), Point(320.0, 100.0)])

  // lines 651-663
  const Star: Template := Template("star", [
    Point(320.0, 100.0), Point(350.0, 200.0), Point(440.0, 220.0), Point(370.0, 280.0),
    Point(400.0, 380.0), Point(320.0, 320.0), Point(240.0, 380.0), Point(270.0, 280.0),
    Point(200.0, 220.0), Point(290.0, 200.0), Point(320.0, 100.0)])

  // lines 664-678
  const Cross: Template := Template("cross", [
    Point(320.0, 100.0), Point(320.0, 250.0), Point(200.0, 250.0), Point(200.0, 280.0),
    Point(320.0, 280.0), Point(320.0, 400.0), Point(350.0, 400.0), Point(350.0, 280.0),
    Point(440.0, 280.0), Point(440.0, 250.0), Point(350.0, 250.0), Point(350.0, 100.0),
    Point(320.0, 100.0)])

  // lines 679-685
  const Leaf: Template := Template("leaf", [
    Point(320.0, 100.0), Point(250.0, 180.0), Point(320.0, 250.0), Point(390.0, 180.0),
    Point(320.0, 100.0)])

  // lines 686-696
  const Cloud: Template := Template("cloud", [
    Point(250.0, 200.0), Point(280.0, 150.0), Point(350.0, 130.0), Point(420.0, 150.0),
    Point(450.0, 200.0), Point(420.0, 250.0), Point(350.0, 270.0), Point(280.0, 250.0),
    Point(250.0, 200.0)])

  // lines 697-707
  const Heart: Template := Template("heart", [
    Point(320.0, 150.0), Point(250.0, 100.0), Point(200.0, 150.0), Point(250.0, 220.0),
    Point(320.0, 280.0), Point(390.0, 220.0), Point(440.0, 150.0), Point(390.0, 100.0),
    Point(320.0, 150.0)])

  // lines 708-720
  const Spiral: Template := Template("spiral", [
    Point(320.0, 200.0), Point(280.0, 180.0), Point(300.0, 220.0), Point(340.0, 240.0),
    Point(360.0, 210.0), Point(340.0, 180.0), Point(310.0, 170.0), Point(290.0, 190.0),
    Point(310.0, 220.0), Point(350.0, 240.0), Point(380.0, 220.0)])

  // lines 721-729
  const Fractal: Template := Template("fractal", [
    Point(320.0, 100.0), Point(280.0, 160.0), Point(350.0, 180.0), Point(300.0, 240.0),
    Point(370.0, 260.0), Point(340.0, 320.0), Point(400.0, 340.0)])

  // lines 730-737
  const House: Template := Template("house", [
    Point(320.0, 100.0), Point(200.0, 220.0), Point(200.0, 350.0), Point(440.0, 350.0),
    Point(440.0, 220.0), Point(320.0, 100.0)])

  // lines 738-743
  const Pyramid: Template := Template("pyramid", [
    Point(320.0, 100.0), Point(200.0, 350.0), Point(440.0, 350.0), Point(320.0, 100.0)])

  /** Lines 444-447: `for (let object in aiDrawingTemplates)` tries the names in table order
      and stops at the first one whose `draw <name>` is the command. */
  function Lookup(command: string): (r: Option<seq<Point>>)
    ensures r.Some? <==> exists k :: 0 <= k < |Table| && command == "draw " + Table[k].name
  {
    FirstMatch(Table, command, 0)
  }

  /** The search from entry `k` of `table` on. */
  function FirstMatch(table: seq<Template>, command: string, k: nat): (r: Option<seq<Point>>)
    requires k <= |table|
    ensures r.Some? <==> exists j :: k <= j < |table| && command == "draw " + table[j].name
    ensures r.Some? ==> exists j :: k <= j < |table| && command == "draw " + table[j].name && r.value == table[j].points
    decreases |table| - k
  {
    if k == |table| then None
    else if command == "draw " + table[k].name then Some(table[k].points)
    else FirstMatch(table, command, k + 1)
  }

  /** The table's names are the keys of an object literal: no two alike. */
  lemma NamesAreDistinct()
    ensures forall i, j :: 0 <= i < j < |Table| ==> Table[i].name != Table[j].name
  {
  }

  /** `draw <name>` plays exactly the template of that name, whatever its place. */
  lemma LookupFindsEveryTemplate(k: nat)
    requires k < |Table|
    ensures Lookup("draw " + Table[k].name) == Some(Table[k].points)
  {
    NamesAreDistinct();
    var command := "draw " + Table[k].name;
    forall j | 0 <= j < k
      ensures command != "draw " + Table[j].name
    {
      assert ("draw " + Table[j].name)[5..] == Table[j].name;
      assert command[5..] == Table[k].name;
    }
    FirstMatchSkips(Table, command, 0, k);
  }

  lemma {:induction false} FirstMatchSkips(table: seq<Template>, command: string, from: nat, k: nat)
    requires from <= k < |table| && command == "draw " + table[k].name
    requires forall j :: from <= j < k ==> command != "draw " + table[j].name
    ensures FirstMatch(table, command, from) == Some(table[k].points)
    decreases k - from
  {
    if from < k {
      FirstMatchSkips(table, command, from + 1, k);
    }
  }

  /** Every template has at least four points, so playing one draws at least three
      segments. */
  lemma TemplatesHaveSegments()
    ensures forall k :: 0 <= k < |Table| ==> |Table[k].points| >= 4
  {
  }

  /** A command the lookup accepts yields the points of some template. */
  lemma LookupYieldsTemplate(command: string)
    ensures Lookup(command).Some? ==> exists k :: 0 <= k < |Table| && Lookup(command).value == Table[k].points && |Table[k].points| >= 4
  {
    TemplatesHaveSegments();
  }

  /** So a `draw` command always has segments to play. */
  lemma LookupHasSegments(command: string)
    ensures Lookup(command).Some? ==> |Lookup(command).value| >= 4
  {
    LookupYieldsTemplate(command);
  }

  /** Two commands from the page: `draw circle` plays the first template; a name the table
      lacks plays nothing. */
  lemma LookupExamples()
    ensures Lookup("draw circle") == Some(Table[0].points)
    ensures Lookup("draw dog") == None
  {
    LookupCircle();
    LookupDog();
  }

  lemma LookupCircle()
    ensures Lookup("draw circle") == Some(Table[0].points)
  {
    LookupFindsEveryTemplate(0);
    assert Table[0].name == "circle";
  }

  lemma LookupDog()
    ensures Lookup("draw dog") == None
  {
    NoDog();
    forall k | 0 <= k < |Table|
      ensures "draw dog" != "draw " + Table[k].name
    {
      DrawPrefix("dog", Table[k].name);
    }
  }

  lemma NoDog()
    ensures forall k :: 0 <= k < |Table| ==> Table[k].name != "dog"
  {
  }

  /** Two commands `draw <a>` and `draw <b>` are equal only when the names are. */
  lemma DrawPrefix(a: string, b: string)
    ensures "draw " + a == "draw " + b ==> a == b
  {
    assert ("draw " + a)[5..] == a && ("draw " + b)[5..] == b;
  }
}
