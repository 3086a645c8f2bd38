/** The assistant chat endpoint: a keyword classifier that picks one of a fixed
    set of canned answers, and the request check that refuses an empty message. */
module Chat {
  import opened Common
  import opened Text

  /** The subjects the classifier recognises, in the order it tries them,
      followed by the fallback. */
  datatype Topic = Ventas | Inventario | Cobrar | Tratamiento | Gastos | Pacientes | Pyg | Compras | Saludo | Ayuda

  /** Position of a topic in the order of the tests; the fallback comes last. */
  function Rank(t: Topic): nat
  {
    match t
    case Ventas => 0
    case Inventario => 1
    case Cobrar => 2
    case Tratamiento => 3
    case Gastos => 4
    case Pacientes => 5
    case Pyg => 6
    case Compras => 7
    case Saludo => 8
    case Ayuda => 9
  }

  /** The words whose presence selects a topic. */
  function Keywords(t: Topic): seq<string>
  {
    match t
    case Ventas => ["ventas", "venta"]
    case Inventario => ["inventario", "stock", "productos"]
    case Cobrar => ["cobrar", "cuentas por cobrar", "deudas"]
    case Tratamiento => ["tratamiento", "rentable", "margen"]
    case Gastos => ["gastos", "gasto"]
    case Pacientes => ["pacientes", "clientes"]
    case Pyg => ["pyg", "pérdidas", "ganancias"]
    case Compras => ["compras", "proveedores"]
    case Saludo => ["hola", "hello", "ayuda"]
    case Ayuda => []
  }

  /** The lower-cased message includes one of the topic's words. */
  predicate Mentions(low: string, t: Topic)
  {
    exists i :: 0 <= i < |Keywords(t)| && Contains(low, Keywords(t)[i])
  }

  /** The topic of a message: the first, in the order of the tests, whose words
      it mentions once lower-cased, or the fallback when it mentions none. */
  function Classify(message: string): (t: Topic)
    ensures t != Ayuda ==> Mentions(Lower(message), t)
    ensures forall u :: Rank(u) < Rank(t) ==> !Mentions(Lower(message), u)
  {
    var low := Lower(message);
    if Mentions(low, Ventas) then Ventas
    else if Mentions(low, Inventario) then Inventario
    else if Mentions(low, Cobrar) then Cobrar
    else if Mentions(low, Tratamiento) then Tratamiento
    else if Mentions(low, Gastos) then Gastos
    else if Mentions(low, Pacientes) then Pacientes
    else if Mentions(low, Pyg) then Pyg
    else if Mentions(low, Compras) then Compras
    else if Mentions(low, Saludo) then Saludo
    else Ayuda
  }

  /** The canned answers. */
  const VentasAnswer: string := "Las ventas de este mes van en $15,000,000 COP. Un 12% más que el mes anterior. 🎉"
  const InventarioAnswer: string := "Tienes 3 productos en estado crítico: Guantes L, Resina A3, y Lidocaína 2%. Te recomiendo hacer un pedido pronto."
  const CobrarAnswer: string := "Esta semana tienes $2,400,000 COP por cobrar de 5 pacientes con cuotas pendientes. 2 de ellas están vencidas."
  const TratamientoAnswer: string := "Tu tratamiento más rentable es Diseño de Sonrisa con un margen del 68%. Le sigue Ortodoncia con 54%."
  const GastosAnswer: string := "Los gastos de este mes suman $8,200,000 COP. El mayor gasto es Nómina ($5,000,000), seguido de Materiales ($2,100,000)."
  const PacientesAnswer: string := "Tienes 10 pacientes registrados. 3 pacientes tienen citas pendientes esta semana. El paciente más recurrente es María García con 8 visitas."
  const PygAnswer: string := "Tu P&G muestra utilidad neta de $6,800,000 este mes. Margen operacional: 45%. Muy por encima del promedio del sector (30%)."
  const ComprasAnswer: string := "Este mes has realizado 10 compras por un total de $3,500,000 COP. Tu proveedor principal es DentalCo con 6 órdenes."
  const SaludoAnswer: string := "¡Hola! 👋 Soy tu asistente de CR Dental Studio. Puedo ayudarte con información sobre ventas, inventario, cuentas por cobrar, gastos, pacientes, P&G y más. ¿Qué necesitas saber?"
  const AyudaAnswer: string := "Puedo ayudarte con información sobre ventas, inventario, cuentas por cobrar, tratamientos rentables, gastos, pacientes, P&G y proveedores. ¿Qué necesitas saber específicamente?"

  /** The canned answer of each topic. */
  function Answer(t: Topic): string
  {
    match t
    case Ventas => VentasAnswer
    case Inventario => InventarioAnswer
    case Cobrar => CobrarAnswer
    case Tratamiento => TratamientoAnswer
    case Gastos => GastosAnswer
    case Pacientes => PacientesAnswer
    case Pyg => PygAnswer
    case Compras => ComprasAnswer
    case Saludo => SaludoAnswer
    case Ayuda => AyudaAnswer
  }

  /** Every topic has an answer to give. */
  lemma AnswerNonEmpty(t: Topic)
    ensures Answer(t) != []
  {
  }

  /** `getMockResponse`: the answer of the message's topic. */
  function MockResponse(message: string): string
  {
    Answer(Classify(message))
  }

  /** `getMockResponse` is total: every message gets a non-empty answer. */
  lemma ResponseNonEmpty(message: string)
    ensures MockResponse(message) != []
  {
    AnswerNonEmpty(Classify(message));
  }

  /** Matching ignores case: a message and its lower-cased form get the same topic. */
  lemma CaseInsensitive(message: string)
    ensures Classify(Lower(message)) == Classify(message)
  {
    LowerIdempotent(message);
  }

  /** A message mentioning sales gets the sales answer, whatever else it mentions. */
  lemma SalesComeFirst(message: string)
    requires Contains(Lower(message), "venta")
    ensures Classify(message) == Ventas
  {
    assert Keywords(Ventas)[1] == "venta";
  }

  /** The longer words of some rules are redundant: "ventas" contains "venta",
      "gastos" contains "gasto" and "cuentas por cobrar" contains "cobrar". */
  lemma RedundantKeywords(low: string)
    ensures Mentions(low, Ventas) <==> Contains(low, "venta")
    ensures Mentions(low, Gastos) <==> Contains(low, "gasto")
    ensures Mentions(low, Cobrar) <==> Contains(low, "cobrar") || Contains(low, "deudas")
  {
    if Contains(low, "ventas") {
      assert "venta" + "s" == "ventas";
      ContainsParts(low, "venta", "s");
    }
    if Contains(low, "gastos") {
      assert "gasto" + "s" == "gastos";
      ContainsParts(low, "gasto", "s");
    }
    if Contains(low, "cuentas por cobrar") {
      assert "cuentas por " + "cobrar" == "cuentas por cobrar";
      ContainsParts(low, "cuentas por ", "cobrar");
    }
    assert Keywords(Ventas)[1] == "venta";
    assert Keywords(Gastos)[1] == "gasto";
    assert Keywords(Cobrar)[0] == "cobrar" && Keywords(Cobrar)[2] == "deudas";
  }

  /** The endpoint's reply: the answer, or a refusal with an HTTP status. */
  datatype ChatReply = Replied(response: string) | Refused(status: int, error: string)

  const EmptyMessage: string := "Mensaje vacío"

  /** `POST`: a missing message, or one that trims to nothing, is refused with
      400; any other message gets the classifier's answer. */
  function Post(message: Option<string>): (r: ChatReply)
    ensures r.Refused? <==> message.None? || Trim(message.value) == ""
    ensures r.Refused? ==> r == Refused(400, EmptyMessage)
    ensures r.Replied? ==> r.response == MockResponse(message.value)
  {
    match message
    case None => Refused(400, EmptyMessage)
    case Some(m) => if m == "" || Trim(m) == "" then Refused(400, EmptyMessage) else Replied(MockResponse(m))
  }

  /** A message is refused exactly when it is missing or made only of whitespace. */
  lemma RefusedIffBlank(message: string)
    ensures Post(Some(message)).Refused? <==> forall i :: 0 <= i < |message| ==> IsSpace(message[i])
  {
    TrimEmptyIff(message);
  }
}
