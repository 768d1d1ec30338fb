/** The failure analysis panel: the RPN colour band and the severity colour
    of its fixed failure list. */
module FailureAnalysis {

  datatype Failure = Failure(id: string, equipment: string, failureMode: string, severity: string,
                             frequency: string, detection: string, rpn: int)

  /** The panel's fixed list (the fields the model reads). */
  const FailureData: seq<Failure> := [
    Failure("FA-001", "Motor Elétrico M-205", "Superaquecimento", "Alta", "Média", "Baixa", 64),
    Failure("FA-002", "Válvula de Segurança V-101", "Vazamento interno", "Crítica", "Baixa", "Alta", 32),
    Failure("FA-003", "Bomba Centrífuga B-102", "Cavitação", "Média", "Alta", "Média", 48)
  ]

  /** `getRPNColor`: an RPN of 64 or more is high, 32 to 63 medium, below 32
      low. */
  function RpnColor(rpn: int): (c: string)
    ensures c == "rpn-high" <==> rpn >= 64
    ensures c == "rpn-medium" <==> 32 <= rpn < 64
    ensures c == "rpn-low" <==> rpn < 32
  {
    if rpn >= 64 then "rpn-high"
    else if rpn >= 32 then "rpn-medium"
    else "rpn-low"
  }

  function Rank(color: string): nat {
    if color == "rpn-high" then 2 else if color == "rpn-medium" then 1 else 0
  }

  /** A larger RPN never gets a lower band. */
  lemma RpnColorMonotone(a: int, b: int)
    requires a <= b
    ensures Rank(RpnColor(a)) <= Rank(RpnColor(b))
  {
  }

  /** The band edges and the fixed rows: 64 is high, 32 and 48 medium. */
  lemma RpnColorExamples()
    ensures RpnColor(31) == "rpn-low" && RpnColor(32) == "rpn-medium"
    ensures RpnColor(63) == "rpn-medium" && RpnColor(64) == "rpn-high"
    ensures RpnColor(FailureData[0].rpn) == "rpn-high"
    ensures RpnColor(FailureData[1].rpn) == "rpn-medium" && RpnColor(FailureData[2].rpn) == "rpn-medium"
  {
  }

  /** `getSeverityColor`. */
  function SeverityColor(severity: string): (c: string)
    ensures severity !in {"Crítica", "Alta", "Média", "Baixa"} ==> c == "bg-muted text-muted-foreground"
  {
    match severity
    case "Crítica" => "status-critical"
    case "Alta" => "rpn-medium"
    case "Média" => "rpn-medium"
    case "Baixa" => "status-operational"
    case _ => "bg-muted text-muted-foreground"
  }

  /** 'Alta' and 'Média' share a colour, distinct from 'Crítica' and
      'Baixa'. */
  lemma HighAndMediumShareAColor()
    ensures SeverityColor("Alta") == SeverityColor("Média")
    ensures SeverityColor("Crítica") != SeverityColor("Alta") && SeverityColor("Baixa") != SeverityColor("Alta")
  {
  }
}
