/** The status-class classifier: the `switch` that the request wrappers use to
    pick the `status_class` label from an HTTP status code. */
module Status {

  const Label5xx: string := "5xx"
  const Label4xx: string := "4xx"
  const Label3xx: string := "3xx"
  const Label2xx: string := "2xx"

  /** The four labels the classifier can produce. */
  ghost predicate IsStatusClass(l: string)
  {
    l == Label5xx || l == Label4xx || l == Label3xx || l == Label2xx
  }

  /** The switch as written: its cases are tried in order, and the `>= 200`
      case and the default case give the same label, so every code below 300
      (1xx codes, zero and negative values too) is labelled "2xx". */
  function Classify(status: int): (sc: string)
    ensures IsStatusClass(sc)
    ensures sc == Label5xx <==> status >= 500
    ensures sc == Label4xx <==> 400 <= status < 500
    ensures sc == Label3xx <==> 300 <= status < 400
    ensures sc == Label2xx <==> status < 300
  {
    if status >= 500 then Label5xx
    else if status >= 400 then Label4xx
    else if status >= 300 then Label3xx
    else if status >= 200 then Label2xx
    else Label2xx
  }

  /** An independent reading of the labels: a digit followed by "xx". */
  function HundredsLabel(status: int): (l: string)
    requires 200 <= status < 600
  {
    [(('0' as int) + status / 100) as char] + "xx"
  }

  /** On the codes the labels are named after (200 to 599) the switch gives
      the hundreds digit of the code followed by "xx". */
  lemma ClassifyIsHundredsDigit(status: int)
    requires 200 <= status < 600
    ensures Classify(status) == HundredsLabel(status)
  {
  }
}
