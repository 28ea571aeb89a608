/**
 * The fretboard diagram as the viewer sees it: elements addressed by string and
 * note or by string and fret, and the set of CSS classes they carry.
 */
module Diagram {

  /** Which attached diagram (container element) an element belongs to. */
  type DiagramId = nat

  /**
   * An element of one diagram: `#<string>_<name><octave>` for a note label,
   * `.string.<string> .fret-<fret> label` for a fret label.
   */
  datatype Loc = NoteLoc(str: string, name: string, octave: int) | FretLoc(str: string, fret: int)

  datatype Elem = Elem(diagram: DiagramId, loc: Loc)

  /** The CSS classes the viewer toggles. */
  datatype Cls = Highlight | X | Active | Root

  /** Element `elem` carries class `cls`. */
  datatype Mark = Mark(elem: Elem, cls: Cls)

  /** A short opacity dip on some elements (the "blink"), seen as an output event. */
  datatype Blink = Blink(elems: set<Elem>)

  /** `classList.add(cls)` on every element of `elems`. */
  function WithClass(marks: set<Mark>, elems: set<Elem>, cls: Cls): (r: set<Mark>)
    ensures forall m :: m in r <==> m in marks || (m.cls == cls && m.elem in elems)
  {
    marks + set e | e in elems :: Mark(e, cls)
  }

  /** `classList.remove(cls)` on every element of `elems`. */
  function WithoutClass(marks: set<Mark>, elems: set<Elem>, cls: Cls): (r: set<Mark>)
    ensures forall m :: m in r <==> m in marks && !(m.cls == cls && m.elem in elems)
  {
    marks - set e | e in elems :: Mark(e, cls)
  }

  /** Every element of diagram `d` loses every class in `classes`; other marks stay. */
  function Cleared(marks: set<Mark>, d: DiagramId, classes: set<Cls>): (r: set<Mark>)
    ensures forall m :: m in r <==> m in marks && !(m.elem.diagram == d && m.cls in classes)
  {
    set m | m in marks && !(m.elem.diagram == d && m.cls in classes)
  }

  /** Clearing the same classes twice is clearing them once. */
  lemma ClearedIdempotent(marks: set<Mark>, d: DiagramId, classes: set<Cls>)
    ensures Cleared(Cleared(marks, d, classes), d, classes) == Cleared(marks, d, classes)
  {
  }

  /** At most one element of each diagram is marked `root`. */
  ghost predicate OneRootPerDiagram(marks: set<Mark>) {
    forall m1, m2 | m1 in marks && m2 in marks ::
      m1.cls == Root && m2.cls == Root && m1.elem.diagram == m2.elem.diagram ==> m1 == m2
  }
}
