/** The clinic's treatment catalogue: each treatment's name, category and
    price; the sorted list of categories; and the lookups by name and by
    category. */
module Treatments {
  import opened Common
  import opened Seqs
  import opened Text

  datatype Treatment = Treatment(nombre: string, categoria: string, precio: int)

  /** `TRATAMIENTOS_DENTALES`. */
  function Catalogue(): seq<Treatment>
  {
    [
      Treatment("Lentes Cerámicos", "Estética", 2500000),
      Treatment("Diseño de Sonrisa", "Estética", 3500000),
      Treatment("Armonización de Sonrisa", "Estética", 1800000),
      Treatment("Blanqueamiento Dental", "Estética", 450000),
      Treatment("Recorte de Encía", "Cirugía", 800000),
      Treatment("Cirugía Oral", "Cirugía", 350000),
      Treatment("Bichectomía", "Cirugía", 1200000),
      Treatment("Perfilamiento de Papada", "Cirugía", 1500000),
      Treatment("Implantes Dentales", "Rehabilitación", 2000000),
      Treatment("Rehabilitación Oral", "Rehabilitación", 1500000),
      Treatment("Corona Porcelana", "Rehabilitación", 650000),
      Treatment("Corona Metal-Porcelana", "Rehabilitación", 550000),
      Treatment("Puente Fijo (3 piezas)", "Rehabilitación", 1200000),
      Treatment("Prótesis Removible Parcial", "Rehabilitación", 800000),
      Treatment("Prótesis Removible Total", "Rehabilitación", 1000000),
      Treatment("Ortodoncia", "Ortodoncia", 200000),
      Treatment("Ortodoncia Instalación", "Ortodoncia", 800000),
      Treatment("Endodoncia", "Endodoncia", 380000),
      Treatment("Periodoncia", "Periodoncia", 150000),
      Treatment("Detartraje (Limpieza Profunda)", "Periodoncia", 120000),
      Treatment("Odontología General", "General", 80000),
      Treatment("Consulta General", "General", 50000),
      Treatment("Limpieza Dental (Profilaxis)", "General", 80000),
      Treatment("Urgencia Odontológica", "General", 80000),
      Treatment("Resina Dental (1 superficie)", "Restauración", 150000),
      Treatment("Resina Dental (2 superficies)", "Restauración", 200000),
      Treatment("Resina Dental (3 superficies)", "Restauración", 250000),
      Treatment("Extracción Simple", "Cirugía", 120000),
      Treatment("Extracción Compleja", "Cirugía", 180000),
      Treatment("Extracción Quirúrgica", "Cirugía", 250000),
      Treatment("Radiografía Periapical", "Diagnóstico", 25000),
      Treatment("Radiografía Panorámica", "Diagnóstico", 60000),
      Treatment("Sellante de Fosas", "Prevención", 40000),
      Treatment("Aplicación de Flúor", "Prevención", 30000),
      Treatment("Otros", "Otros", 0)
    ]
  }

  // ---------------------------------------------------------------------------
  // Lookups

  /** `find` from position `k` on: the first entry at or after `k` named
      `nombre`, if any. */
  function FirstNamedFrom(ts: seq<Treatment>, nombre: string, k: nat): (r: Option<nat>)
    requires k <= |ts|
    ensures r.Some? ==> k <= r.value < |ts| && ts[r.value].nombre == nombre
    ensures r.Some? ==> forall j :: k <= j < r.value ==> ts[j].nombre != nombre
    ensures r.None? <==> forall j :: k <= j < |ts| ==> ts[j].nombre != nombre
    decreases |ts| - k
  {
    if k == |ts| then None
    else if ts[k].nombre == nombre then Some(k)
    else FirstNamedFrom(ts, nombre, k + 1)
  }

  function FirstNamed(ts: seq<Treatment>, nombre: string): (r: Option<nat>)
    ensures r.Some? ==> r.value < |ts| && ts[r.value].nombre == nombre
    ensures r.Some? ==> forall j :: 0 <= j < r.value ==> ts[j].nombre != nombre
    ensures r.None? <==> forall j :: 0 <= j < |ts| ==> ts[j].nombre != nombre
  {
    FirstNamedFrom(ts, nombre, 0)
  }

  /** `find` stops at the first entry with the name. */
  lemma FirstNamedAt(ts: seq<Treatment>, nombre: string, k: nat)
    requires k < |ts| && ts[k].nombre == nombre
    requires forall j :: 0 <= j < k ==> ts[j].nombre != nombre
    ensures FirstNamed(ts, nombre) == Some(k)
  {
  }

  /** `getTreatmentByName`: the first catalogue entry whose name is exactly
      `nombre`, or nothing when no entry has that name. */
  function TreatmentByName(ts: seq<Treatment>, nombre: string): (r: Option<Treatment>)
    ensures r.Some? ==> r.value in ts && r.value.nombre == nombre
    ensures r.None? <==> forall t :: t in ts ==> t.nombre != nombre
  {
    match FirstNamed(ts, nombre)
    case None => None
    case Some(i) => Some(ts[i])
  }

  function InCategory(categoria: string): Treatment -> bool
  {
    (t: Treatment) => t.categoria == categoria
  }

  /** `getTreatmentsByCategory`: exactly the entries of the category, in
      catalogue order. */
  function TreatmentsByCategory(ts: seq<Treatment>, categoria: string): (r: seq<Treatment>)
    ensures forall t :: t in r <==> t in ts && t.categoria == categoria
    ensures IsSubsequence(r, ts)
  {
    Filter(ts, InCategory(categoria))
  }

  // ---------------------------------------------------------------------------
  // Categories

  /** `Array.from(new Set(...))`: the values in order of first occurrence,
      each once. */
  function FirstOccurrences(s: seq<string>): (r: seq<string>)
    ensures Distinct(r)
    ensures forall x :: x in r <==> x in s
  {
    if s == [] then []
    else
      var front := FirstOccurrences(s[..|s| - 1]);
      assert s == s[..|s| - 1] + [s[|s| - 1]];
      if s[|s| - 1] in front then front else front + [s[|s| - 1]]
  }

  lemma LexOrders()
    ensures TotalPreorder(LexLeq)
  {
    forall a: string, b: string ensures LexLeq(a, b) || LexLeq(b, a) {
      LexLeqTotal(a, b);
    }
    forall a: string, b: string, c: string | LexLeq(a, b) && LexLeq(b, c) ensures LexLeq(a, c) {
      LexLeqTransitive(a, b, c);
    }
  }

  function Categoria(t: Treatment): string { t.categoria }

  /** The categories of some treatments, each once, sorted as JavaScript's
      default `sort` orders strings. */
  function CategoriesOf(ts: seq<Treatment>): (r: seq<string>)
    ensures Distinct(r)
    ensures forall i, j :: 0 <= i < j < |r| ==> LexLeq(r[i], r[j])
    ensures forall c :: c in r <==> exists t :: t in ts && t.categoria == c
  {
    var names := seq(|ts|, i requires 0 <= i < |ts| => ts[i].categoria);
    var unique := FirstOccurrences(names);
    LexOrders();
    var r := SortBy(unique, LexLeq);
    PermutationDistinct(r, unique);
    forall c ensures c in r <==> exists t :: t in ts && t.categoria == c {
      assert c in r <==> c in multiset(unique);
      if c in names {
        var i :| 0 <= i < |names| && names[i] == c;
        assert ts[i] in ts;
      }
      if exists t :: t in ts && t.categoria == c {
        var t :| t in ts && t.categoria == c;
        var i :| 0 <= i < |ts| && ts[i] == t;
        assert names[i] == c;
      }
    }
    r
  }

  /** `CATEGORIAS_TRATAMIENTOS`. */
  function CategoriasTratamientos(): seq<string>
  {
    CategoriesOf(Catalogue())
  }

  /** Every entry belongs to exactly one listed category, whose lookup
      returns it: the category lookups together give back the catalogue. */
  lemma CategoriesCoverCatalogue(ts: seq<Treatment>)
    ensures forall t :: t in ts ==> t.categoria in CategoriesOf(ts) && t in TreatmentsByCategory(ts, t.categoria)
    ensures forall c, t :: c in CategoriesOf(ts) && t in TreatmentsByCategory(ts, c) ==> t in ts && t.categoria == c
  {
  }

  /** Every listed category has at least one entry. */
  lemma NoEmptyCategory(ts: seq<Treatment>, c: string)
    requires c in CategoriesOf(ts)
    ensures TreatmentsByCategory(ts, c) != []
  {
    var t :| t in ts && t.categoria == c;
    assert t in TreatmentsByCategory(ts, c);
  }

  // ---------------------------------------------------------------------------
  // Prices

  /** No price is negative. */
  lemma CataloguePrices()
    ensures forall i :: 0 <= i < |Catalogue()| ==> Catalogue()[i].precio >= 0
  {
  }

  /** Only the last entry, "Otros" (a treatment priced case by case), is free. */
  lemma OnlyOtrosIsFree()
    ensures Catalogue()[|Catalogue()| - 1].nombre == "Otros"
    ensures forall i :: 0 <= i < |Catalogue()| ==> (Catalogue()[i].precio == 0 <==> i == |Catalogue()| - 1)
  {
  }

  /** An entry of the demo data: a treatment name and the amount charged for it. */
  datatype SeedEntry = SeedEntry(name: string, amount: int)

  /** `TRATAMIENTOS_SEED`. */
  function Seed(): seq<SeedEntry>
  {
    [
      SeedEntry("Consulta General", 50000),
      SeedEntry("Limpieza Dental (Profilaxis)", 80000),
      SeedEntry("Resina Dental (1 superficie)", 150000),
      SeedEntry("Extracción Simple", 120000),
      SeedEntry("Blanqueamiento Dental", 450000),
      SeedEntry("Endodoncia", 380000),
      SeedEntry("Corona Porcelana", 650000),
      SeedEntry("Ortodoncia", 200000),
      SeedEntry("Implantes Dentales", 2000000),
      SeedEntry("Diseño de Sonrisa", 3500000),
      SeedEntry("Lentes Cerámicos", 2500000),
      SeedEntry("Bichectomía", 1200000),
      SeedEntry("Periodoncia", 150000),
      SeedEntry("Rehabilitación Oral", 1500000)
    ]
  }

  /** The catalogue entry at `i` is the seed entry's treatment at its price. */
  predicate PricedAt(e: SeedEntry, i: nat)
  {
    i < |Catalogue()| && Catalogue()[i].nombre == e.name && Catalogue()[i].precio == e.amount
  }

  /** The catalogue position of each seed entry's treatment. */
  const SeedPositions: seq<nat> := [21, 22, 24, 27, 3, 17, 10, 15, 8, 1, 0, 6, 18, 9]

  lemma SeedFrontMatches()
    ensures forall k :: 0 <= k < 7 ==> PricedAt(Seed()[k], SeedPositions[k])
  {
  }

  lemma SeedBackMatches()
    ensures forall k :: 7 <= k < |Seed()| ==> PricedAt(Seed()[k], SeedPositions[k])
  {
  }

  /** Every seed entry names a catalogue treatment and charges its catalogue price. */
  lemma SeedMatchesCatalogue()
    ensures forall k :: 0 <= k < |Seed()| ==> PricedAt(Seed()[k], SeedPositions[k])
  {
    SeedFrontMatches();
    SeedBackMatches();
  }
}
