/** The closed table of materials: Sand (a Powder) and Cobble (a Solid). */
module Elements {

  datatype Material = Sand | Cobble

  /** The behaviour a material inherits: Powder defines `update`, Solid defines none. */
  datatype Kind = Powder | Solid

  function KindOf(m: Material): (k: Kind)
  {
    match m
    case Sand => Powder
    case Cobble => Solid
  }

  /** True when particles of this material have an `update` method. */
  predicate HasUpdate(m: Material)
  {
    KindOf(m) == Powder
  }

  /** Probability that one spawn attempt of this material succeeds. */
  function SpawnDensity(m: Material): (d: real)
    ensures 0.0 < d < 1.0
    ensures m == Sand ==> d == 0.1
    ensures m == Cobble ==> d == 0.6
  {
    match m
    case Sand => 0.1
    case Cobble => 0.6
  }

  /** Colour name handed to the renderer. */
  function Color(m: Material): (c: string)
    ensures m == Sand ==> c == "goldenrod"
    ensures m == Cobble ==> c == "gray"
  {
    match m
    case Sand => "goldenrod"
    case Cobble => "gray"
  }

  /** Sand moves by the Powder rule and Cobble never has an update. */
  lemma MaterialTable()
    ensures HasUpdate(Sand) && !HasUpdate(Cobble)
    ensures Color(Sand) == "goldenrod" && Color(Cobble) == "gray"
  {
  }
}
