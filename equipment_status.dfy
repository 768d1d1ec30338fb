/** The equipment status panel: the availability colour band, the status
    icon and badge with their defaults, and the per-status summary of its
    fixed equipment list. */
module EquipmentStatus {
  import opened Seqs

  datatype Equipment = Equipment(name: string, status: string, availability: real, nextMaintenance: string,
                                 location: string)

  /** The panel's fixed list. */
  const EquipmentData: seq<Equipment> := [
    Equipment("Tesoura Guilhotina", "operational", 98.5, "3 dias", "Linha 1"),
    Equipment("Laminador Principal", "maintenance", 0.0, "Em andamento", "Linha 2"),
    Equipment("Forno Recozimento", "warning", 87.2, "Hoje", "Área Térmica"),
    Equipment("Bomba Hidráulica B-101", "operational", 99.1, "7 dias", "Casa de Bombas"),
    Equipment("Motor Elétrico M-205", "critical", 45.8, "Urgente", "Linha 3")
  ]

  /** `getAvailabilityColor`. */
  function AvailabilityColor(availability: real): (c: string)
    ensures c == "bg-green-500" <==> availability >= 95.0
    ensures c == "bg-yellow-500" <==> 80.0 <= availability < 95.0
    ensures c == "bg-red-500" <==> availability < 80.0
  {
    if availability >= 95.0 then "bg-green-500"
    else if availability >= 80.0 then "bg-yellow-500"
    else "bg-red-500"
  }

  /** Position of a colour on the red, yellow, green scale. */
  function Rank(color: string): nat {
    if color == "bg-green-500" then 2 else if color == "bg-yellow-500" then 1 else 0
  }

  /** Higher availability never gets a worse colour. */
  lemma AvailabilityColorMonotone(a: real, b: real)
    requires a <= b
    ensures Rank(AvailabilityColor(a)) <= Rank(AvailabilityColor(b))
  {
  }

  /** The icon `getStatusIcon` draws: its shape and colour class. */
  datatype Icon = Icon(shape: string, color: string)

  /** `getStatusIcon`. */
  function StatusIcon(status: string): (i: Icon)
    ensures status !in {"operational", "warning", "critical", "maintenance"} ==>
      i == Icon("CheckCircle", "text-gray-600")
  {
    match status
    case "operational" => Icon("CheckCircle", "text-green-600")
    case "warning" => Icon("AlertTriangle", "text-yellow-600")
    case "critical" => Icon("XCircle", "text-red-600")
    case "maintenance" => Icon("Clock", "text-blue-600")
    case _ => Icon("CheckCircle", "text-gray-600")
  }

  const Variants: map<string, string> :=
    map["operational" := "default", "warning" := "secondary", "critical" := "destructive", "maintenance" := "outline"]
  const Labels: map<string, string> :=
    map["operational" := "Operacional", "warning" := "Atenção", "critical" := "Crítico", "maintenance" := "Manutenção"]

  /** `getStatusBadge`: the variant and label for the status, with
      `'outline'` and `'Desconhecido'` for any other status. */
  function StatusBadge(status: string): (b: (string, string))
    ensures status in Variants ==> b == (Variants[status], Labels[status])
    ensures status !in Variants ==> b == ("outline", "Desconhecido")
  {
    (if status in Variants then Variants[status] else "outline",
     if status in Labels then Labels[status] else "Desconhecido")
  }

  predicate IsOperational(e: Equipment) { e.status == "operational" }
  predicate IsWarning(e: Equipment) { e.status == "warning" }
  predicate IsCritical(e: Equipment) { e.status == "critical" }
  predicate InMaintenance(e: Equipment) { e.status == "maintenance" }

  /** `statusSummary`. */
  datatype Summary = Summary(operational: nat, warning: nat, critical: nat, maintenance: nat)

  /** Each count is the number of entries with that status; together they
      account for at most every entry. */
  function StatusSummary(items: seq<Equipment>): (s: Summary)
    ensures s.operational == Count(items, IsOperational) && s.warning == Count(items, IsWarning)
    ensures s.critical == Count(items, IsCritical) && s.maintenance == Count(items, InMaintenance)
    ensures s.operational + s.warning + s.critical + s.maintenance <= |items|
  {
    CountsBounded(items, IsOperational, IsWarning, IsCritical, InMaintenance);
    Summary(Count(items, IsOperational), Count(items, IsWarning), Count(items, IsCritical),
            Count(items, InMaintenance))
  }

  /** Counts by four mutually exclusive predicates add up to at most the
      length. */
  lemma {:induction false} CountsBounded(s: seq<Equipment>, p: Equipment -> bool, q: Equipment -> bool,
                                         r: Equipment -> bool, t: Equipment -> bool)
    requires forall x :: (p(x) ==> !q(x) && !r(x) && !t(x)) && (q(x) ==> !r(x) && !t(x)) && (r(x) ==> !t(x))
    ensures Count(s, p) + Count(s, q) + Count(s, r) + Count(s, t) <= |s|
    decreases |s|
  {
    if s != [] {
      CountsBounded(s[1..], p, q, r, t);
    }
  }

  function Indicator(b: bool): nat { if b then 1 else 0 }

  /** A count over the fixed list, entry by entry. */
  lemma CountFixedList(p: Equipment -> bool)
    ensures Count(EquipmentData, p) ==
      Indicator(p(EquipmentData[0])) + Indicator(p(EquipmentData[1])) + Indicator(p(EquipmentData[2])) +
      Indicator(p(EquipmentData[3])) + Indicator(p(EquipmentData[4]))
  {
    var d := EquipmentData;
    assert d[4..][1..] == [];
    assert d[3..][1..] == d[4..];
    assert d[2..][1..] == d[3..];
    assert d[1..][1..] == d[2..];
    assert |Filter(d[4..], p)| == Indicator(p(d[4]));
    assert |Filter(d[3..], p)| == Indicator(p(d[3])) + |Filter(d[4..], p)|;
    assert |Filter(d[2..], p)| == Indicator(p(d[2])) + |Filter(d[3..], p)|;
    assert |Filter(d[1..], p)| == Indicator(p(d[1])) + |Filter(d[2..], p)|;
  }

  /** The statuses of the fixed list, in order. */
  lemma FixedStatuses()
    ensures |EquipmentData| == 5
    ensures EquipmentData[0].status == "operational" && EquipmentData[1].status == "maintenance"
    ensures EquipmentData[2].status == "warning" && EquipmentData[3].status == "operational"
    ensures EquipmentData[4].status == "critical"
  {
  }

  lemma OperationalOfFixedList()
    ensures Count(EquipmentData, IsOperational) == 2
  {
    FixedStatuses();
    CountFixedList(IsOperational);
    assert !IsOperational(EquipmentData[1]) by { assert "maintenance"[0] != "operational"[0]; }
    assert !IsOperational(EquipmentData[2]) && !IsOperational(EquipmentData[4]);
  }

  lemma WarningOfFixedList()
    ensures Count(EquipmentData, IsWarning) == 1
  {
    FixedStatuses();
    CountFixedList(IsWarning);
  }

  lemma CriticalOfFixedList()
    ensures Count(EquipmentData, IsCritical) == 1
  {
    FixedStatuses();
    CountFixedList(IsCritical);
  }

  lemma MaintenanceOfFixedList()
    ensures Count(EquipmentData, InMaintenance) == 1
  {
    FixedStatuses();
    CountFixedList(InMaintenance);
    assert !InMaintenance(EquipmentData[0]) && !InMaintenance(EquipmentData[3]) by {
      assert "maintenance"[0] != "operational"[0];
    }
  }

  /** Every entry of the fixed list has one of the four statuses, so the
      summary accounts for all five. */
  lemma SummaryOfFixedList()
    ensures StatusSummary(EquipmentData) == Summary(2, 1, 1, 1)
  {
    OperationalOfFixedList();
    WarningOfFixedList();
    CriticalOfFixedList();
    MaintenanceOfFixedList();
  }
}
