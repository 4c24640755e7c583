/** The Spring `HttpStatus` constants for 2xx codes (lib/spring-http-status.js). */
module SpringHttpStatus {
  import opened Wrappers

  /** One table entry; `isDefault` is absent (false) on every entry but 200. */
  datatype HttpStatus = HttpStatus(name: string, displayName: string, isDefault: bool)

  /** fromStatusCode: the statusMap entry for `code`, or undefined. */
  function FromStatusCode(code: int): Option<HttpStatus> {
    match code
    case 200 => Some(HttpStatus("OK", "OK", true))
    case 201 => Some(HttpStatus("CREATED", "Created", false))
    case 202 => Some(HttpStatus("ACCEPTED", "Accepted", false))
    case 203 => Some(HttpStatus("NON_AUTHORITATIVE_INFORMATION", "Non-Authoritative Information", false))
    case 204 => Some(HttpStatus("NO_CONTENT", "No Content", false))
    case 205 => Some(HttpStatus("RESET_CONTENT", "Reset Content", false))
    case 206 => Some(HttpStatus("PARTIAL_CONTENT", "Partial Content", false))
    case 207 => Some(HttpStatus("MULTI_STATUS", "Multi-Status", false))
    case 208 => Some(HttpStatus("ALREADY_REPORTED", "Already Reported", false))
    case 226 => Some(HttpStatus("IM_USED", "IM Used", false))
    case _ => None
  }

  /** Exactly 200-208 and 226 have entries, all of them 2xx, and only 200 is the implicit default. */
  lemma FromStatusCodeRange(code: int)
    ensures FromStatusCode(code).Some? <==> (200 <= code <= 208 || code == 226)
    ensures FromStatusCode(code).Some? ==> 200 <= code < 300
    ensures FromStatusCode(code).Some? ==> (FromStatusCode(code).value.isDefault <==> code == 200)
  {
  }

  /** Each entry holds the Spring constant and the reason phrase for its code. */
  lemma StatusNames()
    ensures FromStatusCode(200) == Some(HttpStatus("OK", "OK", true))
    ensures FromStatusCode(201) == Some(HttpStatus("CREATED", "Created", false))
    ensures FromStatusCode(202) == Some(HttpStatus("ACCEPTED", "Accepted", false))
    ensures FromStatusCode(203) == Some(HttpStatus("NON_AUTHORITATIVE_INFORMATION", "Non-Authoritative Information", false))
    ensures FromStatusCode(204) == Some(HttpStatus("NO_CONTENT", "No Content", false))
  {
  }

  /** The entries after 204, and codes without one. */
  lemma StatusNamesUpper()
    ensures FromStatusCode(205) == Some(HttpStatus("RESET_CONTENT", "Reset Content", false))
    ensures FromStatusCode(206) == Some(HttpStatus("PARTIAL_CONTENT", "Partial Content", false))
    ensures FromStatusCode(207) == Some(HttpStatus("MULTI_STATUS", "Multi-Status", false))
    ensures FromStatusCode(208) == Some(HttpStatus("ALREADY_REPORTED", "Already Reported", false))
    ensures FromStatusCode(226) == Some(HttpStatus("IM_USED", "IM Used", false))
    ensures FromStatusCode(209).None? && FromStatusCode(299).None? && FromStatusCode(404).None?
  {
  }
}
