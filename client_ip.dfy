/**
 * InferenceController.getClientIP: the caller's address, taken from the
 * X-Forwarded-For header, else the X-Real-IP header, else the socket's
 * remote address. A header counts only when present, non-empty and not
 * "unknown" in any letter case.
 */
module ClientIp {
  import opened Wrappers
  import opened JavaLang

  /** The parts of the servlet request getClientIP reads. */
  datatype ClientRequest = ClientRequest(
    forwardedFor: Option<string>,   // getHeader("X-Forwarded-For")
    realIp: Option<string>,         // getHeader("X-Real-IP")
    remoteAddr: string)             // getRemoteAddr()

  predicate Usable(header: Option<string>) {
    header.Some? && |header.value| > 0 && !IsUnknownIgnoringCase(header.value)
  }

  /** The first entry of a forwarded-for list: the text before the first
      comma, trimmed; a value without a comma is returned as it is. */
  function FirstForwarded(xff: string): string {
    var index := IndexOf(xff, ',');
    if index != -1 then Trim(xff[..index]) else xff
  }

  function GetClientIp(r: ClientRequest): string {
    if Usable(r.forwardedFor) then FirstForwarded(r.forwardedFor.value)
    else if Usable(r.realIp) then r.realIp.value
    else r.remoteAddr
  }

  // ---------------------------------------------------------------------------
  // Properties

  /** The first forwarded entry holds no comma and lies inside the header
      value. */
  lemma FirstForwardedIsInfix(xff: string)
    ensures ',' !in FirstForwarded(xff)
    ensures exists i :: InfixAt(xff, FirstForwarded(xff), i)
  {
    var ip := FirstForwarded(xff);
    var index := IndexOf(xff, ',');
    if index != -1 {
      var first := xff[..index];
      var i :| TrimmedAt(first, ip, i);
      forall k | 0 <= k < |ip| ensures ip[k] != ',' {
        assert ip[k] == first[i + k];
      }
      assert xff[i..i + |ip|] == first[i..i + |ip|];
      assert InfixAt(xff, ip, i);
    } else {
      assert InfixAt(xff, ip, 0);
    }
  }

  /** A usable X-Forwarded-For decides alone: the result is its first
      comma-separated piece, trimmed, or the whole value when there is no
      comma; neither X-Real-IP nor the remote address matters. */
  lemma ForwardedForWins(r: ClientRequest, other: ClientRequest)
    requires Usable(r.forwardedFor) && other.forwardedFor == r.forwardedFor
    ensures var xff := r.forwardedFor.value;
      GetClientIp(r) == (if ',' in xff then Trim(Pieces(xff, ',')[0]) else xff)
    ensures GetClientIp(other) == GetClientIp(r)
  {
    FirstPiece(r.forwardedFor.value, ',');
  }

  /** Without a usable X-Forwarded-For, a usable X-Real-IP is returned as it is. */
  lemma RealIpSecond(r: ClientRequest)
    requires !Usable(r.forwardedFor) && Usable(r.realIp)
    ensures GetClientIp(r) == r.realIp.value
  {
  }

  /** With neither header usable, the remote address is returned. */
  lemma RemoteAddressLast(r: ClientRequest)
    requires !Usable(r.forwardedFor) && !Usable(r.realIp)
    ensures GetClientIp(r) == r.remoteAddr
  {
  }

  /** "UNKNOWN" is skipped like "unknown". */
  lemma UpperCaseUnknownSkipped()
    ensures GetClientIp(ClientRequest(Some("UNKNOWN"), Some("10.0.0.7"), "127.0.0.1")) == "10.0.0.7"
  {
    assert IsUnknownIgnoringCase("UNKNOWN");
  }

  /** "unknown" spelt with the Kelvin sign U+212A is skipped as well. */
  lemma KelvinSignUnknownSkipped()
    ensures GetClientIp(ClientRequest(Some("un\U{212A}nown"), None, "127.0.0.1")) == "127.0.0.1"
  {
    assert IsUnknownIgnoringCase("un\U{212A}nown");
  }

  /** A single forwarded address keeps its surrounding blanks. */
  lemma SingleAddressUntrimmed()
    ensures GetClientIp(ClientRequest(Some(" 10.1.1.5"), None, "127.0.0.1")) == " 10.1.1.5"
  {
    assert ',' !in " 10.1.1.5";
  }
}
