/** The equipment management screen: the search over its fixed equipment
    list and the status and criticality colour classes. */
module EquipmentManagement {
  import opened Text
  import opened Seqs

  /** An equipment entry (`type` is `kind`). */
  datatype Equipment = Equipment(id: string, name: string, kind: string, location: string,
                                 status: string, criticality: string)

  /** The screen's fixed list. */
  const Equipments: seq<Equipment> := [
    Equipment("TG-001", "Tesoura Guilhotina Principal", "Equipamento de Corte", "Linha de Produção 1",
              "Operacional", "Alta"),
    Equipment("LP-002", "Laminador de Bobinas", "Equipamento de Laminação", "Linha de Produção 2",
              "Manutenção", "Crítica"),
    Equipment("FR-003", "Forno de Recozimento", "Equipamento Térmico", "Área de Tratamento Térmico",
              "Atenção", "Alta"),
    Equipment("BH-101", "Bomba Hidráulica Principal", "Sistema Hidráulico", "Casa de Bombas",
              "Operacional", "Média")
  ]

  predicate Matches(e: Equipment, term: string) {
    IncludesIgnoringCase(e.name, term) || IncludesIgnoringCase(e.id, term) || IncludesIgnoringCase(e.kind, term)
  }

  /** `filteredEquipments`: an entry is kept exactly when the term occurs,
      ignoring case, in its name, id or type; kept entries stay in order. */
  function FilteredEquipments(items: seq<Equipment>, term: string): (r: seq<Equipment>)
    ensures forall e :: e in r <==>
      e in items &&
      (IncludesIgnoringCase(e.name, term) || IncludesIgnoringCase(e.id, term) || IncludesIgnoringCase(e.kind, term))
    ensures IsSubsequence(r, items)
  {
    FilterIsSubsequence(items, e => Matches(e, term));
    Filter(items, e => Matches(e, term))
  }

  /** The empty search shows every entry. */
  lemma EmptySearchKeepsAll(items: seq<Equipment>)
    ensures FilteredEquipments(items, "") == items
  {
    forall e | e in items
      ensures Matches(e, "")
    {
      IncludesEmptyIgnoringCase(e.name);
    }
    FilterKeepsAll(items, e => Matches(e, ""));
  }

  /** `getStatusColor`: chosen on the lower-cased status. */
  function StatusColor(status: string): string {
    match Lower(status)
    case "operacional" => "bg-green-100 text-green-800 border-green-200"
    case "manutenção" => "bg-blue-100 text-blue-800 border-blue-200"
    case "atenção" => "bg-yellow-100 text-yellow-800 border-yellow-200"
    case "crítico" => "bg-red-100 text-red-800 border-red-200"
    case _ => "bg-gray-100 text-gray-800 border-gray-200"
  }

  /** The status colour ignores case: a status and its lower-cased form get
      the same colour. */
  lemma StatusColorIgnoresCase(status: string)
    ensures StatusColor(status) == StatusColor(Lower(status))
  {
    LowerIdempotent(status);
  }

  /** 'Operacional' and 'operacional' are green; an unknown status is grey. */
  lemma StatusColorExamples()
    ensures StatusColor("Operacional") == StatusColor("operacional") == "bg-green-100 text-green-800 border-green-200"
    ensures StatusColor("Parado") == "bg-gray-100 text-gray-800 border-gray-200"
  {
    assert Lower("Operacional") == "operacional";
    assert Lower("operacional") == "operacional";
    assert Lower("Parado") == "parado";
  }

  /** `getCriticalityColor`: chosen on the lower-cased criticality. */
  function CriticalityColor(criticality: string): string {
    match Lower(criticality)
    case "crítica" => "bg-red-500"
    case "alta" => "bg-orange-500"
    case "média" => "bg-yellow-500"
    case "baixa" => "bg-green-500"
    case _ => "bg-gray-500"
  }

  /** The four known criticalities, capitalised as the screen shows them or in
      lower case, get red, orange, yellow and green; anything else is grey.
      `Lower` folds ASCII letters only, so an accented capital such as 'Í'
      is not folded (see "Left out" in the README). */
  lemma CriticalityColors(c: string)
    ensures CriticalityColor("Crítica") == "bg-red-500" && CriticalityColor("Alta") == "bg-orange-500"
    ensures CriticalityColor("Média") == "bg-yellow-500" && CriticalityColor("Baixa") == "bg-green-500"
    ensures Lower(c) !in {"crítica", "alta", "média", "baixa"} ==> CriticalityColor(c) == "bg-gray-500"
  {
    assert Lower("Crítica") == "crítica";
    assert Lower("Alta") == "alta";
    assert Lower("Média") == "média";
    assert Lower("Baixa") == "baixa";
  }
}
