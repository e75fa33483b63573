/** Chat utilities: MIME-type tests, the IMDN headers read out of CPIM content
  * (sections 6.2 and 6.3 of RFC 5438, inside RFC 3862 messages), the CPIM and IMDN
  * builders, the feature tags a chat advertises and the choice of an invitation's
  * first message. */
module ChatUtilsModel {
  import opened Common
  import opened JavaStrings

  const CRLF: string := "\r\n"

  // MIME types the predicates test against (all lower case)
  const TEXT_PLAIN_MIME_TYPE: string := "text/plain"
  const IS_COMPOSING_MIME_TYPE: string := "application/im-iscomposing+xml"
  const CPIM_MIME_TYPE: string := "message/cpim"
  const IMDN_MIME_TYPE: string := "message/imdn+xml"
  const GEOLOC_MIME_TYPE: string := "application/vnd.gsma.rcspushlocation+xml"
  const FILE_TRANSFER_MIME_TYPE: string := "application/vnd.gsma.rcs-ft-http+xml"

  // IMDN header names and tokens (RFC 5438)
  const HEADER_IMDN_MSG_ID: string := "imdn.Message-ID"
  const HEADER_CONTENT_TYPE: string := "Content-type"
  const HEADER_CONTENT_LENGTH: string := "Content-length"
  /** The parameter the builders append to the content type. */
  const CHARSET_UTF8: string := ";charset=utf-8"
  const HEADER_IMDN_DISPO_NOTIF: string := "imdn.Disposition-Notification"
  const POSITIVE_DELIVERY: string := "positive-delivery"
  const DISPLAY: string := "display"
  const IMDN_NAMESPACE: string := "imdn <urn:ietf:params:imdn>"
  const DELIVERY_STATUS_DISPLAYED: string := "displayed"
  const DELIVERY_STATUS_DELIVERED: string := "delivered"
  const IMDN_NOTIFICATION: string := "notification"

  const HEADER_CONTRIBUTION_ID: string := "Contribution-ID"

  // Feature tags
  const FEATURE_OMA_IM: string := "+g.oma.sip-im"
  const FEATURE_RCSE: string := "+g.3gpp.iari-ref"
  const FEATURE_RCSE_GEOLOCATION_PUSH: string := "urn%3Aurn-7%3A3gpp-application.ims.iari.rcs.geopush"
  const FEATURE_RCSE_FT: string := "urn%3Aurn-7%3A3gpp-application.ims.iari.rcs.ft"
  const FEATURE_RCSE_FT_HTTP: string := "urn%3Aurn-7%3A3gpp-application.ims.iari.rcs.fthttp"
  const FEATURE_RCSE_FT_SF: string := "urn%3Aurn-7%3A3gpp-application.ims.iari.rcs.ftstandfw"

  /** `s` starts with `lowerPrefix` once its letters are lower-cased, character by character. */
  predicate CaseInsensitivePrefix(s: string, lowerPrefix: string)
  {
    |lowerPrefix| <= |s| && forall i :: 0 <= i < |lowerPrefix| ==> LowerChar(s[i]) == lowerPrefix[i]
  }

  /** The shape of every MIME predicate: false for null, otherwise the lower-cased
    * MIME type starts with the constant. */
  function HasMimePrefix(mime: Option<string>, mimeType: string): (b: bool)
    ensures b <==> mime.Some? && CaseInsensitivePrefix(mime.value, mimeType)
  {
    mime.Some? && StartsWith(ToLower(mime.value), mimeType)
  }

  function IsTextPlainType(mime: Option<string>): (b: bool)
    ensures b <==> mime.Some? && CaseInsensitivePrefix(mime.value, TEXT_PLAIN_MIME_TYPE)
  {
    HasMimePrefix(mime, TEXT_PLAIN_MIME_TYPE)
  }

  function IsApplicationIsComposingType(mime: Option<string>): (b: bool)
    ensures b <==> mime.Some? && CaseInsensitivePrefix(mime.value, IS_COMPOSING_MIME_TYPE)
  {
    HasMimePrefix(mime, IS_COMPOSING_MIME_TYPE)
  }

  function IsMessageCpimType(mime: Option<string>): (b: bool)
    ensures b <==> mime.Some? && CaseInsensitivePrefix(mime.value, CPIM_MIME_TYPE)
  {
    HasMimePrefix(mime, CPIM_MIME_TYPE)
  }

  function IsMessageImdnType(mime: Option<string>): (b: bool)
    ensures b <==> mime.Some? && CaseInsensitivePrefix(mime.value, IMDN_MIME_TYPE)
  {
    HasMimePrefix(mime, IMDN_MIME_TYPE)
  }

  function IsGeolocType(mime: Option<string>): (b: bool)
    ensures b <==> mime.Some? && CaseInsensitivePrefix(mime.value, GEOLOC_MIME_TYPE)
  {
    HasMimePrefix(mime, GEOLOC_MIME_TYPE)
  }

  /** Two constants that differ at a position where both are defined cannot both prefix
    * the same lower-cased text. */
  lemma PrefixesDisagree(s: string, p: string, q: string, i: nat)
    requires i < |p| && i < |q| && p[i] != q[i]
    ensures !(CaseInsensitivePrefix(s, p) && CaseInsensitivePrefix(s, q))
  {
  }

  /** No MIME type is classified two ways: the constants differ within their common length. */
  lemma MimeClassesExclusive(mime: Option<string>)
    ensures !(IsTextPlainType(mime) && IsMessageCpimType(mime))
    ensures !(IsTextPlainType(mime) && IsApplicationIsComposingType(mime))
    ensures !(IsMessageCpimType(mime) && IsMessageImdnType(mime))
    ensures !(IsApplicationIsComposingType(mime) && IsGeolocType(mime))
    ensures !(IsMessageCpimType(mime) && IsGeolocType(mime))
  {
    if mime.Some? {
      var s := mime.value;
      PrefixesDisagree(s, TEXT_PLAIN_MIME_TYPE, CPIM_MIME_TYPE, 0);
      PrefixesDisagree(s, TEXT_PLAIN_MIME_TYPE, IS_COMPOSING_MIME_TYPE, 0);
      PrefixesDisagree(s, CPIM_MIME_TYPE, IMDN_MIME_TYPE, 8);
      PrefixesDisagree(s, IS_COMPOSING_MIME_TYPE, GEOLOC_MIME_TYPE, 12);
      PrefixesDisagree(s, CPIM_MIME_TYPE, GEOLOC_MIME_TYPE, 0);
    }
  }

  /** A MIME type is recognised whatever the case of its letters. */
  lemma MimeTestIgnoresCase(s: string, t: string, mimeType: string)
    requires EqualsIgnoreCase(s, t)
    ensures HasMimePrefix(Some(s), mimeType) == HasMimePrefix(Some(t), mimeType)
  {
  }

  /** getContributionId: the Contribution-ID header's value, None when absent. */
  function GetContributionId(headers: map<string, string>): (r: Option<string>)
    ensures r.Some? <==> HEADER_CONTRIBUTION_ID in headers
    ensures r.Some? ==> r.value == headers[HEADER_CONTRIBUTION_ID]
  {
    if HEADER_CONTRIBUTION_ID in headers then Some(headers[HEADER_CONTRIBUTION_ID]) else None
  }

  /** The text the IMDN readers look at: from one character past the first occurrence of
    * `header` (skipping the ':') up to the next CRLF. None when the content is null,
    * the header is absent, or a substring call would throw (no CRLF follows). */
  function HeaderLineValue(content: Option<string>, header: string): Option<string>
  {
    if content.None? then None
    else
      var s := content.value;
      var index := IndexOf(s, header);
      if index == -1 then None
      else
        var start := index + |header| + 1;
        if start > |s| then None
        else
          var part := s[start..];
          var end := IndexOf(part, CRLF);
          if end == -1 then None
          else Some(part[..end])
  }

  /** What HeaderLineValue reads: the text right after the header and its separator, up
    * to the first CRLF there; and exactly when it reads nothing. */
  lemma HeaderLineValueSpec(content: Option<string>, header: string)
    ensures var r := HeaderLineValue(content, header);
            r.Some? ==> content.Some? && Contains(content.value, header)
    ensures var r := HeaderLineValue(content, header);
            r.Some? ==>
              var start := IndexOf(content.value, header) + |header| + 1;
              start <= |content.value|
              && StartsWith(content.value[start..], r.value + CRLF)
              && forall k :: 0 <= k < |r.value| ==> !OccursAt(content.value[start..], CRLF, k)
    ensures HeaderLineValue(content, header).None? <==>
              || content.None?
              || !Contains(content.value, header)
              || IndexOf(content.value, header) + |header| + 1 > |content.value|
              || !Contains(content.value[IndexOf(content.value, header) + |header| + 1..], CRLF)
  {
    if content.Some? && Contains(content.value, header) {
      var s := content.value;
      var start := IndexOf(s, header) + |header| + 1;
      if start <= |s| {
        var part := s[start..];
        var end := IndexOf(part, CRLF);
        if end != -1 {
          assert part[end..end + 2] == CRLF;
          assert part[..end + 2] == part[..end] + CRLF;
        }
      }
    }
  }

  /** isImdnDeliveredRequested: the Disposition-Notification value asks for positive delivery. */
  function IsImdnDeliveredRequested(content: Option<string>): (b: bool)
    ensures b ==> content.Some? && Contains(content.value, HEADER_IMDN_DISPO_NOTIF)
    ensures b <==> HeaderLineValue(content, HEADER_IMDN_DISPO_NOTIF).Some?
                   && Contains(HeaderLineValue(content, HEADER_IMDN_DISPO_NOTIF).value, POSITIVE_DELIVERY)
  {
    var notif := HeaderLineValue(content, HEADER_IMDN_DISPO_NOTIF);
    notif.Some? && IndexOf(notif.value, POSITIVE_DELIVERY) != -1
  }

  /** isImdnDisplayedRequested: the Disposition-Notification value asks for display. */
  function IsImdnDisplayedRequested(content: Option<string>): (b: bool)
    ensures b ==> content.Some? && Contains(content.value, HEADER_IMDN_DISPO_NOTIF)
    ensures b <==> HeaderLineValue(content, HEADER_IMDN_DISPO_NOTIF).Some?
                   && Contains(HeaderLineValue(content, HEADER_IMDN_DISPO_NOTIF).value, DISPLAY)
  {
    var notif := HeaderLineValue(content, HEADER_IMDN_DISPO_NOTIF);
    notif.Some? && IndexOf(notif.value, DISPLAY) != -1
  }

  /** getMessageId: the trimmed Message-ID value; None when absent or unreadable. */
  function GetMessageId(content: Option<string>): (r: Option<string>)
    ensures r.Some? <==> HeaderLineValue(content, HEADER_IMDN_MSG_ID).Some?
    ensures r.Some? ==> r.value == Trim(HeaderLineValue(content, HEADER_IMDN_MSG_ID).value)
    ensures r.Some? && r.value != [] ==> r.value[0] > ' ' && r.value[|r.value| - 1] > ' '
  {
    var line := HeaderLineValue(content, HEADER_IMDN_MSG_ID);
    if line.None? then None else Some(Trim(line.value))
  }

  /** formatCpimSipUri on the trimmed input: an input already in angle brackets or with a
    * display name is kept; a sip: or tel: URI is bracketed; anything else is a number,
    * formatted into a SIP URI by `formatNumberToSipUri`, then bracketed. */
  function FormatCpimSipUri(input: string, formatNumberToSipUri: string -> string): (r: string)
    ensures var t := Trim(input);
            if StartsWith(t, "<") || StartsWith(t, "\"") then r == t
            else if StartsWith(t, "sip:") || StartsWith(t, "tel:") then r == "<" + t + ">"
            else r == "<" + formatNumberToSipUri(t) + ">"
    ensures r != [] && (r[0] == '<' || r[0] == '"')
  {
    var t := Trim(input);
    if StartsWith(t, "<") then assert t[0] == t[..1][0]; t
    else if StartsWith(t, "\"") then assert t[0] == t[..1][0]; t
    else if StartsWith(t, "sip:") || StartsWith(t, "tel:") then ['<'] + t + ['>']
    else ['<'] + formatNumberToSipUri(t) + ['>']
  }

  /** A bracketed address with no blank at either end is already formatted. */
  lemma BracketedIsFormatted(u: string, formatNumberToSipUri: string -> string)
    requires u != [] && u[0] == '<' && u[|u| - 1] > ' '
    ensures FormatCpimSipUri(u, formatNumberToSipUri) == u
  {
    TrimOfTrimmed(u);
    assert u[..1] == "<";
  }

  /** Formatting an already formatted address leaves it unchanged. */
  lemma FormatCpimSipUriIdempotent(input: string, formatNumberToSipUri: string -> string)
    ensures var r := FormatCpimSipUri(input, formatNumberToSipUri);
            FormatCpimSipUri(r, formatNumberToSipUri) == r
  {
    var r := FormatCpimSipUri(input, formatNumberToSipUri);
    var t := Trim(input);
    if StartsWith(t, "<") || StartsWith(t, "\"") {
      TrimIdempotent(input);
    } else {
      var inner := if StartsWith(t, "sip:") || StartsWith(t, "tel:") then t else formatNumberToSipUri(t);
      assert r == "<" + inner + ">";
      assert r[|r| - 1] == '>';
      BracketedIsFormatted(r, formatNumberToSipUri);
    }
  }

  /** One header line: the name, a colon and a space, the value, CRLF. */
  function HeaderLine(name: string, value: string): (line: string)
    ensures |line| >= 2 && line[|line| - 1] == '\n'
  {
    name + ": " + value + CRLF
  }

  /** The From and To lines every CPIM builder starts with. */
  function CpimAddressLines(from: string, to: string, formatNumberToSipUri: string -> string): string
  {
    HeaderLine("From", FormatCpimSipUri(from, formatNumberToSipUri))
    + HeaderLine("To", FormatCpimSipUri(to, formatNumberToSipUri))
  }

  /** The address lines followed by the IMDN namespace declaration. */
  function CpimNamespaceLines(from: string, to: string, formatNumberToSipUri: string -> string): string
  {
    CpimAddressLines(from, to, formatNumberToSipUri) + HeaderLine("NS", IMDN_NAMESPACE)
  }

  /** A text built as a prefix, a middle part and the content starts with the prefix and
    * ends with the content. */
  lemma FramedEnds(prefix: string, middle: string, content: string)
    ensures StartsWith(prefix + (middle + content), prefix)
    ensures EndsWith(prefix + (middle + content), content)
  {
    ConcatEnds(middle, content);
    EndsWithPrepend(prefix, middle + content, content);
    ConcatEnds(prefix, middle + content);
  }

  /** buildCpimMessage: addresses, date, a blank line, the content type, a blank line, the
    * content. `date` is the encoded current time. */
  function BuildCpimMessage(from: string, to: string, content: string, contentType: string,
                            date: string, formatNumberToSipUri: string -> string): (r: string)
    ensures StartsWith(r, CpimAddressLines(from, to, formatNumberToSipUri))
    ensures EndsWith(r, content)
  {
    var addresses := CpimAddressLines(from, to, formatNumberToSipUri);
    var middle := HeaderLine("DateTime", date) + CRLF
      + HeaderLine(HEADER_CONTENT_TYPE, contentType + CHARSET_UTF8) + CRLF;
    FramedEnds(addresses, middle, content);
    addresses + (middle + content)
  }

  /** The CPIM header block of the IMDN-requesting builders up to their
    * Disposition-Notification line. */
  function ImdnPrelude(from: string, to: string, messageId: string, date: string,
                       formatNumberToSipUri: string -> string): string
  {
    CpimNamespaceLines(from, to, formatNumberToSipUri) + HeaderLine(HEADER_IMDN_MSG_ID, messageId)
    + HeaderLine("DateTime", date)
  }

  /** The blank line and entity headers between the Disposition-Notification line and the
    * content: content type, the UTF-8 byte length of the content in decimal, a blank line. */
  function EntityHeaders(content: string, contentType: string): string
  {
    CRLF + HeaderLine(HEADER_CONTENT_TYPE, contentType + CHARSET_UTF8)
    + HeaderLine(HEADER_CONTENT_LENGTH, DecimalString(Utf8Length(content))) + CRLF
  }

  /** The shape both IMDN-requesting builders share, parameterised by the value of the
    * Disposition-Notification header. */
  function ImdnCpimMessage(prelude: string, disposition: string, content: string, contentType: string)
    : (r: string)
    ensures StartsWith(r, prelude) && EndsWith(r, content)
  {
    var middle := HeaderLine(HEADER_IMDN_DISPO_NOTIF, disposition) + EntityHeaders(content, contentType);
    FramedEnds(prelude, middle, content);
    prelude + (middle + content)
  }

  /** The Disposition-Notification value asking for both notifications. */
  const DELIVERY_AND_DISPLAY: string := POSITIVE_DELIVERY + ", " + DISPLAY

  /** buildCpimMessageWithImdn: requests both positive delivery and display notifications. */
  function BuildCpimMessageWithImdn(from: string, to: string, messageId: string, content: string,
                                    contentType: string, date: string,
                                    formatNumberToSipUri: string -> string): (r: string)
    ensures StartsWith(r, ImdnPrelude(from, to, messageId, date, formatNumberToSipUri))
    ensures EndsWith(r, content)
  {
    ImdnCpimMessage(ImdnPrelude(from, to, messageId, date, formatNumberToSipUri),
                    DELIVERY_AND_DISPLAY, content, contentType)
  }

  /** buildCpimMessageWithDeliveredImdn: requests positive delivery notifications only. */
  function BuildCpimMessageWithDeliveredImdn(from: string, to: string, messageId: string,
                                             content: string, contentType: string, date: string,
                                             formatNumberToSipUri: string -> string): (r: string)
    ensures StartsWith(r, ImdnPrelude(from, to, messageId, date, formatNumberToSipUri))
    ensures EndsWith(r, content)
  {
    ImdnCpimMessage(ImdnPrelude(from, to, messageId, date, formatNumberToSipUri),
                    POSITIVE_DELIVERY, content, contentType)
  }

  /** buildCpimDeliveryReport: an IMDN document wrapped in CPIM, under a freshly generated
    * message id (`generatedId`), with content type message/imdn+xml. */
  function BuildCpimDeliveryReport(from: string, to: string, imdn: string, generatedId: string,
                                   date: string, formatNumberToSipUri: string -> string): (r: string)
    ensures StartsWith(r, CpimAddressLines(from, to, formatNumberToSipUri))
    ensures EndsWith(r, imdn)
  {
    var addresses := CpimAddressLines(from, to, formatNumberToSipUri);
    var middle := HeaderLine("NS", IMDN_NAMESPACE)
      + HeaderLine(HEADER_IMDN_MSG_ID, generatedId)
      + HeaderLine("DateTime", date) + CRLF
      + HeaderLine(HEADER_CONTENT_TYPE, IMDN_MIME_TYPE)
      + HeaderLine("Content-Disposition", IMDN_NOTIFICATION)
      + HeaderLine(HEADER_CONTENT_LENGTH, DecimalString(Utf8Length(imdn))) + CRLF;
    FramedEnds(addresses, middle, imdn);
    addresses + (middle + imdn)
  }

  /** Once the header is first found at `index` and the text after its separator is a
    * value free of line feeds followed by CRLF, HeaderLineValue reads that value. */
  lemma ReadsValueAfter(s: string, header: string, index: nat, value: string, rest: string)
    requires IndexOf(s, header) == index
    requires index + |header| + 1 <= |s|
    requires s[index + |header| + 1..] == value + CRLF + rest
    requires '\n' !in value
    ensures HeaderLineValue(Some(s), header) == Some(value)
  {
    FirstCrlfAfter(value, rest);
    ConcatEnds(value, CRLF);
    StartsWithAppend(value + CRLF, value, rest);
  }

  /** A header line written right after a line end, whose name does not occur earlier, is
    * found where it was written, and its separator is followed by the value. */
  lemma HeaderFoundAfterLine(pre: string, header: string, value: string, rest: string)
    requires pre == [] || pre[|pre| - 1] == '\n'
    requires '\n' !in header && header != []
    requires !Contains(pre, header)
    ensures var s := pre + HeaderLine(header, value) + rest;
            && IndexOf(s, header) == |pre|
            && |pre| + |header| + 1 <= |s|
            && s[|pre| + |header| + 1..] == " " + value + CRLF + rest
  {
    var s := pre + HeaderLine(header, value) + rest;
    var valued := " " + value + CRLF + rest;
    var after := [':'] + valued;
    assert HeaderLine(header, value) + rest == header + after;
    assert s == pre + header + after;
    FirstOccurrenceAfterLine(pre, header, after);
    ConcatEnds(pre + header, after);
    assert s[|pre| + |header|..] == after;
    assert after[1..] == valued;
  }

  /** A header line written right after a line end, whose name does not occur earlier, is
    * read back by HeaderLineValue as its value with the space after the colon. */
  lemma HeaderLineOfWritten(pre: string, header: string, value: string, rest: string)
    requires pre == [] || pre[|pre| - 1] == '\n'
    requires '\n' !in header && header != []
    requires !Contains(pre, header)
    requires '\n' !in value
    ensures HeaderLineValue(Some(pre + HeaderLine(header, value) + rest), header) == Some(" " + value)
  {
    HeaderFoundAfterLine(pre, header, value, rest);
    ReadsValueAfter(pre + HeaderLine(header, value) + rest, header, |pre|, " " + value, rest);
  }

  /** Concatenation regrouped. */
  lemma Regroup(a: string, b: string, c: string)
    ensures a + b + c == a + (b + c)
  {
  }

  /** The IMDN header names are single non-empty lines. */
  lemma HeaderNamesSingleLine()
    ensures '\n' !in HEADER_IMDN_MSG_ID && HEADER_IMDN_MSG_ID != []
    ensures '\n' !in HEADER_IMDN_DISPO_NOTIF && HEADER_IMDN_DISPO_NOTIF != []
  {
    NotContainsNewline(HEADER_IMDN_MSG_ID);
    NotContainsNewline(HEADER_IMDN_DISPO_NOTIF);
  }

  /** Round trip: the Message-ID written by either IMDN-requesting builder is read back,
    * trimmed, provided the headers before it do not spell out the header name and the id
    * holds no line feed. */
  lemma MessageIdRoundTrip(from: string, to: string, messageId: string, disposition: string,
                           content: string, contentType: string, date: string,
                           formatNumberToSipUri: string -> string)
    requires !Contains(CpimNamespaceLines(from, to, formatNumberToSipUri), HEADER_IMDN_MSG_ID)
    requires '\n' !in messageId
    ensures var r := ImdnCpimMessage(ImdnPrelude(from, to, messageId, date, formatNumberToSipUri),
                                     disposition, content, contentType);
            GetMessageId(Some(r)) == Some(Trim(messageId))
  {
    var pre := CpimNamespaceLines(from, to, formatNumberToSipUri);
    var id := HeaderLine(HEADER_IMDN_MSG_ID, messageId);
    var dateLine := HeaderLine("DateTime", date);
    var tail := HeaderLine(HEADER_IMDN_DISPO_NOTIF, disposition) + EntityHeaders(content, contentType)
      + content;
    var prelude := ImdnPrelude(from, to, messageId, date, formatNumberToSipUri);
    var r := ImdnCpimMessage(prelude, disposition, content, contentType);
    assert prelude == pre + id + dateLine;
    assert r == prelude + tail;
    Regroup(pre + id, dateLine, tail);
    assert pre[|pre| - 1] == '\n';
    HeaderNamesSingleLine();
    HeaderLineOfWritten(pre, HEADER_IMDN_MSG_ID, messageId, dateLine + tail);
    TrimSkipsLeadingBlank(' ', messageId);
    assert [' '] + messageId == " " + messageId;
  }

  /** The value buildCpimMessageWithImdn writes asks for both delivery and display. */
  lemma BothNotificationsRequested()
    ensures Contains(" " + DELIVERY_AND_DISPLAY, POSITIVE_DELIVERY)
    ensures Contains(" " + DELIVERY_AND_DISPLAY, DISPLAY)
  {
    var v := " " + DELIVERY_AND_DISPLAY;
    ContainsAt(v, POSITIVE_DELIVERY, 1);
    ContainsAt(v, DISPLAY, |v| - |DISPLAY|);
  }

  /** The value buildCpimMessageWithDeliveredImdn writes asks for delivery, not display. */
  lemma OnlyDeliveryRequested()
    ensures Contains(" " + POSITIVE_DELIVERY, POSITIVE_DELIVERY)
    ensures !Contains(" " + POSITIVE_DELIVERY, DISPLAY)
  {
    var v := " " + POSITIVE_DELIVERY;
    ContainsAt(v, POSITIVE_DELIVERY, 1);
    assert DISPLAY[5] == 'a';
    NotContainsMissingChar(v, DISPLAY, 5);
  }

  /** The Disposition-Notification value of an IMDN-requesting builder is what a receiver
    * reads back, provided the headers before it do not spell out the header name. */
  lemma DispositionOfWritten(prelude: string, disposition: string, content: string, contentType: string)
    requires prelude != [] && prelude[|prelude| - 1] == '\n'
    requires !Contains(prelude, HEADER_IMDN_DISPO_NOTIF)
    requires '\n' !in disposition
    ensures HeaderLineValue(Some(ImdnCpimMessage(prelude, disposition, content, contentType)),
                            HEADER_IMDN_DISPO_NOTIF) == Some(" " + disposition)
  {
    var line := HeaderLine(HEADER_IMDN_DISPO_NOTIF, disposition);
    var rest := EntityHeaders(content, contentType) + content;
    Regroup(prelude, line, EntityHeaders(content, contentType) + content);
    assert ImdnCpimMessage(prelude, disposition, content, contentType) == prelude + line + rest;
    HeaderNamesSingleLine();
    HeaderLineOfWritten(prelude, HEADER_IMDN_DISPO_NOTIF, disposition, rest);
  }

  /** Round trip of the disposition request: a receiver of buildCpimMessageWithImdn sees
    * both requests, a receiver of buildCpimMessageWithDeliveredImdn sees only delivery.
    * The headers before the Disposition-Notification line must not spell out its name. */
  lemma DispositionRoundTrip(from: string, to: string, messageId: string, content: string,
                             contentType: string, date: string, formatNumberToSipUri: string -> string)
    requires !Contains(ImdnPrelude(from, to, messageId, date, formatNumberToSipUri), HEADER_IMDN_DISPO_NOTIF)
    ensures var full := BuildCpimMessageWithImdn(from, to, messageId, content, contentType, date,
                                                 formatNumberToSipUri);
            IsImdnDeliveredRequested(Some(full)) && IsImdnDisplayedRequested(Some(full))
    ensures var delivered := BuildCpimMessageWithDeliveredImdn(from, to, messageId, content, contentType,
                                                               date, formatNumberToSipUri);
            IsImdnDeliveredRequested(Some(delivered)) && !IsImdnDisplayedRequested(Some(delivered))
  {
    var prelude := ImdnPrelude(from, to, messageId, date, formatNumberToSipUri);
    assert prelude[|prelude| - 1] == '\n';
    DispositionValuesSingleLine();
    DispositionOfWritten(prelude, DELIVERY_AND_DISPLAY, content, contentType);
    BothNotificationsRequested();
    DispositionOfWritten(prelude, POSITIVE_DELIVERY, content, contentType);
    OnlyDeliveryRequested();
  }

  /** The Disposition-Notification values are single lines. */
  lemma DispositionValuesSingleLine()
    ensures '\n' !in DELIVERY_AND_DISPLAY && '\n' !in POSITIVE_DELIVERY
  {
    NotContainsNewline(DELIVERY_AND_DISPLAY);
    NotContainsNewline(POSITIVE_DELIVERY);
  }

  /** `r` ends with `line`, a blank line, then `body`. */
  predicate BodyAfterLine(r: string, line: string, body: string)
  {
    |body| <= |r| && r[|r| - |body|..] == body && EndsWith(r[..|r| - |body|], line + CRLF)
  }

  /** A text ending with a header line, a blank line and a body: what follows the blank
    * line is the body. */
  lemma BodyFollowsBlankLine(head: string, line: string, body: string)
    ensures BodyAfterLine(head + line + CRLF + body, line, body)
  {
    var r := head + line + CRLF + body;
    assert r == head + (line + CRLF) + body;
    assert r[..|r| - |body|] == head + (line + CRLF);
    ConcatEnds(head, line + CRLF);
  }

  /** The headers an IMDN-requesting builder writes before its Content-length line. */
  function ImdnHeadersBeforeLength(prelude: string, disposition: string, contentType: string): string
  {
    prelude + HeaderLine(HEADER_IMDN_DISPO_NOTIF, disposition) + CRLF
    + HeaderLine(HEADER_CONTENT_TYPE, contentType + CHARSET_UTF8)
  }

  /** The Content-length an IMDN-requesting builder writes is read back as the UTF-8 byte
    * length of the content, and the content is exactly what follows that line and the
    * blank line after it, provided the headers before it do not spell out its name. */
  lemma ContentLengthOfWritten(prelude: string, disposition: string, content: string, contentType: string)
    requires !Contains(ImdnHeadersBeforeLength(prelude, disposition, contentType), HEADER_CONTENT_LENGTH)
    ensures HeaderLineValue(Some(ImdnCpimMessage(prelude, disposition, content, contentType)),
                            HEADER_CONTENT_LENGTH) == Some(" " + DecimalString(Utf8Length(content)))
    ensures BodyAfterLine(ImdnCpimMessage(prelude, disposition, content, contentType),
                          HeaderLine(HEADER_CONTENT_LENGTH, DecimalString(Utf8Length(content))), content)
  {
    var pre := ImdnHeadersBeforeLength(prelude, disposition, contentType);
    var length := DecimalString(Utf8Length(content));
    var lengthLine := HeaderLine(HEADER_CONTENT_LENGTH, length);
    RegroupEntity(prelude, HeaderLine(HEADER_IMDN_DISPO_NOTIF, disposition),
                  HeaderLine(HEADER_CONTENT_TYPE, contentType + CHARSET_UTF8), lengthLine, content);
    EntityHeaderTextSingleLine();
    NotContainsNewline(length);
    HeaderLineOfWritten(pre, HEADER_CONTENT_LENGTH, length, CRLF + content);
    BodyFollowsBlankLine(pre, lengthLine, content);
  }

  /** The regrouping ContentLengthOfWritten needs, on plain strings. */
  lemma RegroupEntity(prelude: string, dispo: string, typeLine: string, lengthLine: string, content: string)
    ensures prelude + ((dispo + (CRLF + typeLine + lengthLine + CRLF)) + content)
            == prelude + dispo + CRLF + typeLine + lengthLine + (CRLF + content)
    ensures prelude + dispo + CRLF + typeLine + lengthLine + (CRLF + content)
            == prelude + dispo + CRLF + typeLine + lengthLine + CRLF + content
  {
  }

  /** Both IMDN-requesting builders declare the UTF-8 byte length of their content and
    * put the content right after that line and a blank line, provided the headers
    * before Content-length do not spell out its name. */
  lemma ImdnBuildersDeclareContentLength(from: string, to: string, messageId: string, content: string,
                                         contentType: string, date: string,
                                         formatNumberToSipUri: string -> string)
    requires !Contains(ImdnHeadersBeforeLength(ImdnPrelude(from, to, messageId, date, formatNumberToSipUri),
                                               DELIVERY_AND_DISPLAY, contentType), HEADER_CONTENT_LENGTH)
    requires !Contains(ImdnHeadersBeforeLength(ImdnPrelude(from, to, messageId, date, formatNumberToSipUri),
                                               POSITIVE_DELIVERY, contentType), HEADER_CONTENT_LENGTH)
    ensures var full := BuildCpimMessageWithImdn(from, to, messageId, content, contentType, date,
                                                 formatNumberToSipUri);
            && HeaderLineValue(Some(full), HEADER_CONTENT_LENGTH) == Some(" " + DecimalString(Utf8Length(content)))
            && BodyAfterLine(full, HeaderLine(HEADER_CONTENT_LENGTH, DecimalString(Utf8Length(content))), content)
    ensures var delivered := BuildCpimMessageWithDeliveredImdn(from, to, messageId, content, contentType,
                                                               date, formatNumberToSipUri);
            && HeaderLineValue(Some(delivered), HEADER_CONTENT_LENGTH) == Some(" " + DecimalString(Utf8Length(content)))
            && BodyAfterLine(delivered, HeaderLine(HEADER_CONTENT_LENGTH, DecimalString(Utf8Length(content))), content)
  {
    var prelude := ImdnPrelude(from, to, messageId, date, formatNumberToSipUri);
    ContentLengthOfWritten(prelude, DELIVERY_AND_DISPLAY, content, contentType);
    ContentLengthOfWritten(prelude, POSITIVE_DELIVERY, content, contentType);
  }

  /** The headers buildCpimMessage writes before its Content-type line. */
  function CpimHeadersBeforeType(from: string, to: string, date: string,
                                 formatNumberToSipUri: string -> string): string
  {
    CpimAddressLines(from, to, formatNumberToSipUri) + HeaderLine("DateTime", date) + CRLF
  }

  /** A receiver of buildCpimMessage reads its Content-type as the given type with the
    * UTF-8 charset, and the content is exactly what follows that line and a blank line,
    * provided the headers before it do not spell out its name and the type is one line. */
  lemma CpimMessageReadsBack(from: string, to: string, content: string, contentType: string,
                             date: string, formatNumberToSipUri: string -> string)
    requires !Contains(CpimHeadersBeforeType(from, to, date, formatNumberToSipUri), HEADER_CONTENT_TYPE)
    requires '\n' !in contentType
    ensures var r := BuildCpimMessage(from, to, content, contentType, date, formatNumberToSipUri);
            HeaderLineValue(Some(r), HEADER_CONTENT_TYPE) == Some(" " + (contentType + CHARSET_UTF8))
    ensures BodyAfterLine(BuildCpimMessage(from, to, content, contentType, date, formatNumberToSipUri),
                          HeaderLine(HEADER_CONTENT_TYPE, contentType + CHARSET_UTF8), content)
  {
    var pre := CpimHeadersBeforeType(from, to, date, formatNumberToSipUri);
    var value := contentType + CHARSET_UTF8;
    var typeLine := HeaderLine(HEADER_CONTENT_TYPE, value);
    CpimMessageShape(from, to, content, contentType, date, formatNumberToSipUri);
    EntityHeaderTextSingleLine();
    assert '\n' !in value;
    HeaderLineOfWritten(pre, HEADER_CONTENT_TYPE, value, CRLF + content);
    BodyFollowsBlankLine(pre, typeLine, content);
  }

  /** buildCpimMessage as its headers up to Content-type, that line, a blank line and the
    * content. */
  lemma CpimMessageShape(from: string, to: string, content: string, contentType: string,
                         date: string, formatNumberToSipUri: string -> string)
    ensures var pre := CpimHeadersBeforeType(from, to, date, formatNumberToSipUri);
            var typeLine := HeaderLine(HEADER_CONTENT_TYPE, contentType + CHARSET_UTF8);
            var r := BuildCpimMessage(from, to, content, contentType, date, formatNumberToSipUri);
            && r == pre + typeLine + (CRLF + content)
            && r == pre + typeLine + CRLF + content
  {
    var addresses := CpimAddressLines(from, to, formatNumberToSipUri);
    var dateLine := HeaderLine("DateTime", date);
    var typeLine := HeaderLine(HEADER_CONTENT_TYPE, contentType + CHARSET_UTF8);
    var r := BuildCpimMessage(from, to, content, contentType, date, formatNumberToSipUri);
    assert r == addresses + ((dateLine + CRLF + typeLine + CRLF) + content);
    RegroupCpim(addresses, dateLine, typeLine, content);
  }

  /** The regrouping CpimMessageReadsBack needs, on plain strings. */
  lemma RegroupCpim(addresses: string, dateLine: string, typeLine: string, content: string)
    ensures addresses + ((dateLine + CRLF + typeLine + CRLF) + content)
            == addresses + dateLine + CRLF + typeLine + (CRLF + content)
    ensures addresses + dateLine + CRLF + typeLine + (CRLF + content)
            == addresses + dateLine + CRLF + typeLine + CRLF + content
  {
  }

  /** The headers buildCpimDeliveryReport writes after its Message-ID line and before its
    * Content-length line. */
  function ReportHeadersAfterId(date: string): string
  {
    HeaderLine("DateTime", date) + CRLF + HeaderLine(HEADER_CONTENT_TYPE, IMDN_MIME_TYPE)
    + HeaderLine("Content-Disposition", IMDN_NOTIFICATION)
  }

  /** A receiver of buildCpimDeliveryReport reads back the generated message id, trimmed,
    * and a Content-length equal to the UTF-8 byte length of the IMDN document, which is
    * exactly what follows that line and a blank line. The headers before each of the two
    * must not spell out its name, and the id must be one line. */
  lemma DeliveryReportReadsBack(from: string, to: string, imdn: string, generatedId: string,
                                date: string, formatNumberToSipUri: string -> string)
    requires !Contains(CpimNamespaceLines(from, to, formatNumberToSipUri), HEADER_IMDN_MSG_ID)
    requires '\n' !in generatedId
    requires !Contains(CpimNamespaceLines(from, to, formatNumberToSipUri)
                       + HeaderLine(HEADER_IMDN_MSG_ID, generatedId) + ReportHeadersAfterId(date),
                       HEADER_CONTENT_LENGTH)
    ensures var r := BuildCpimDeliveryReport(from, to, imdn, generatedId, date, formatNumberToSipUri);
            GetMessageId(Some(r)) == Some(Trim(generatedId))
    ensures var r := BuildCpimDeliveryReport(from, to, imdn, generatedId, date, formatNumberToSipUri);
            HeaderLineValue(Some(r), HEADER_CONTENT_LENGTH) == Some(" " + DecimalString(Utf8Length(imdn)))
    ensures BodyAfterLine(BuildCpimDeliveryReport(from, to, imdn, generatedId, date, formatNumberToSipUri),
                          HeaderLine(HEADER_CONTENT_LENGTH, DecimalString(Utf8Length(imdn))), imdn)
  {
    var addresses := CpimAddressLines(from, to, formatNumberToSipUri);
    var nsLine := HeaderLine("NS", IMDN_NAMESPACE);
    var ns := CpimNamespaceLines(from, to, formatNumberToSipUri);
    var idLine := HeaderLine(HEADER_IMDN_MSG_ID, generatedId);
    var dateLine := HeaderLine("DateTime", date);
    var typeLine := HeaderLine(HEADER_CONTENT_TYPE, IMDN_MIME_TYPE);
    var dispositionLine := HeaderLine("Content-Disposition", IMDN_NOTIFICATION);
    var after := ReportHeadersAfterId(date);
    var length := DecimalString(Utf8Length(imdn));
    var lengthLine := HeaderLine(HEADER_CONTENT_LENGTH, length);
    RegroupReport(addresses, nsLine, idLine, dateLine, typeLine, dispositionLine, lengthLine, imdn);
    assert ns[|ns| - 1] == '\n';
    HeaderNamesSingleLine();
    HeaderLineOfWritten(ns, HEADER_IMDN_MSG_ID, generatedId, after + lengthLine + CRLF + imdn);
    TrimSkipsLeadingBlank(' ', generatedId);
    assert [' '] + generatedId == " " + generatedId;
    EntityHeaderTextSingleLine();
    NotContainsNewline(length);
    HeaderLineOfWritten(ns + idLine + after, HEADER_CONTENT_LENGTH, length, CRLF + imdn);
    BodyFollowsBlankLine(ns + idLine + after, lengthLine, imdn);
  }

  /** The regroupings DeliveryReportReadsBack needs, on plain strings. */
  lemma RegroupReport(a: string, nsLine: string, idLine: string, dateLine: string, typeLine: string,
                      dispositionLine: string, lengthLine: string, body: string)
    ensures var after := dateLine + CRLF + typeLine + dispositionLine;
            var r := a + ((nsLine + idLine + dateLine + CRLF + typeLine + dispositionLine + lengthLine + CRLF)
                          + body);
            && r == (a + nsLine) + idLine + (after + lengthLine + CRLF + body)
            && r == (a + nsLine) + idLine + after + lengthLine + (CRLF + body)
            && r == (a + nsLine) + idLine + after + lengthLine + CRLF + body
  {
  }

  /** The entity header names and the charset suffix are single lines. */
  lemma EntityHeaderTextSingleLine()
    ensures '\n' !in HEADER_CONTENT_TYPE && HEADER_CONTENT_TYPE != []
    ensures '\n' !in HEADER_CONTENT_LENGTH && HEADER_CONTENT_LENGTH != []
    ensures '\n' !in CHARSET_UTF8
  {
    NotContainsNewline(HEADER_CONTENT_TYPE);
    NotContainsNewline(HEADER_CONTENT_LENGTH);
    NotContainsNewline(CHARSET_UTF8);
  }

  /** A text made of printable characters holds no line feed. */
  lemma NotContainsNewline(s: string)
    requires forall i :: 0 <= i < |s| ==> s[i] >= ' '
    ensures '\n' !in s
  {
  }

  /** The notification element of an IMDN report for a delivery status. */
  function NotificationElement(status: string): (element: string)
    ensures element == "display-notification" <==> status == DELIVERY_STATUS_DISPLAYED
    ensures element == "delivery-notification" <==> status == DELIVERY_STATUS_DELIVERED
    ensures element == "processing-notification" <==>
              status != DELIVERY_STATUS_DISPLAYED && status != DELIVERY_STATUS_DELIVERED
  {
    if status == DELIVERY_STATUS_DISPLAYED then "display-notification"
    else if status == DELIVERY_STATUS_DELIVERED then "delivery-notification"
    else "processing-notification"
  }

  /** An XML element with its start and end tags. */
  function XmlElement(name: string, content: string): string
  {
    "<" + name + ">" + content + "</" + name + ">"
  }

  /** buildDeliveryReport: an IMDN document (RFC 5438) carrying the message id and the
    * status inside the notification element that matches it. `date` is the encoded
    * current time. */
  function BuildDeliveryReport(msgId: string, status: string, date: string): (r: string)
    ensures Contains(r, XmlElement("message-id", msgId))
    ensures Contains(r, XmlElement(NotificationElement(status), XmlElement("status", "<" + status + "/>")))
  {
    var head := "<?xml version=\"1.0\" encoding=\"UTF-8\"?>" + CRLF
      + "<imdn xmlns=\"urn:ietf:params:xml:ns:imdn\">" + CRLF;
    var idElement := XmlElement("message-id", msgId);
    var middle := CRLF + XmlElement("datetime", date) + CRLF;
    var statusElement := XmlElement(NotificationElement(status), XmlElement("status", "<" + status + "/>"));
    var tail := CRLF + "</imdn>";
    ContainsSuffix(head, idElement);
    ContainsAppend(head + idElement, idElement, middle);
    ContainsAppend(head + idElement + middle, idElement, statusElement);
    ContainsAppend(head + idElement + middle + statusElement, idElement, tail);
    ContainsSuffix(head + idElement + middle, statusElement);
    ContainsAppend(head + idElement + middle + statusElement, statusElement, tail);
    head + idElement + middle + statusElement + tail
  }

  /** The feature switches the tag lists depend on. */
  datatype FeatureSettings = FeatureSettings(
    geolocationPush: bool,
    fileTransfer: bool,
    fileTransferHttp: bool,
    fileTransferStoreForward: bool)

  /** The RCS-e IARI tags enabled by the settings, in a fixed order. */
  function AdditionalRcseTags(settings: FeatureSettings): (r: seq<string>)
    ensures FEATURE_RCSE_GEOLOCATION_PUSH in r <==> settings.geolocationPush
    ensures FEATURE_RCSE_FT in r <==> settings.fileTransfer
    ensures FEATURE_RCSE_FT_HTTP in r <==> settings.fileTransferHttp
    ensures FEATURE_RCSE_FT_SF in r <==> settings.fileTransferStoreForward
    ensures r == [] <==> !settings.geolocationPush && !settings.fileTransfer
                         && !settings.fileTransferHttp && !settings.fileTransferStoreForward
  {
    (if settings.geolocationPush then [FEATURE_RCSE_GEOLOCATION_PUSH] else [])
    + (if settings.fileTransfer then [FEATURE_RCSE_FT] else [])
    + (if settings.fileTransferHttp then [FEATURE_RCSE_FT_HTTP] else [])
    + (if settings.fileTransferStoreForward then [FEATURE_RCSE_FT_SF] else [])
  }

  /** getSupportedFeatureTagsForChat: the OMA IM tag, then one IARI reference tag listing
    * the enabled RCS-e features when there is any. */
  function SupportedFeatureTagsForChat(settings: FeatureSettings): (r: seq<string>)
    ensures |r| >= 1 && r[0] == FEATURE_OMA_IM
    ensures |r| == 1 <==> AdditionalRcseTags(settings) == []
    ensures |r| <= 2
    ensures |r| == 2 ==>
              r[1] == FEATURE_RCSE + "=\"" + JoinWith(AdditionalRcseTags(settings), ',') + "\""
  {
    var additional := AdditionalRcseTags(settings);
    [FEATURE_OMA_IM]
    + (if additional != [] then [FEATURE_RCSE + "=\"" + JoinWith(additional, ',') + "\""] else [])
  }

  /** getSupportedFeatureTagsForGroupChat builds the very same list as the chat's. */
  function SupportedFeatureTagsForGroupChat(settings: FeatureSettings): (r: seq<string>)
    ensures r == SupportedFeatureTagsForChat(settings)
  {
    var additional := AdditionalRcseTags(settings);
    [FEATURE_OMA_IM]
    + (if additional != [] then [FEATURE_RCSE + "=\"" + JoinWith(additional, ',') + "\""] else [])
  }

  /** getAcceptContactTagsForGroupChat: the OMA IM tag alone. */
  function AcceptContactTagsForGroupChat(): (r: seq<string>)
    ensures r == [FEATURE_OMA_IM]
  {
    [FEATURE_OMA_IM]
  }

  /** isImdnService: the content mentions the IMDN namespace and its type is CPIM. */
  function IsImdnService(content: Option<string>, contentType: Option<string>): (b: bool)
    ensures b <==> content.Some? && Contains(content.value, IMDN_NAMESPACE)
                   && contentType.Some? && EqualsIgnoreCase(contentType.value, CPIM_MIME_TYPE)
  {
    content.Some? && IndexOf(content.value, IMDN_NAMESPACE) != -1
    && contentType.Some? && EqualsIgnoreCase(contentType.value, CPIM_MIME_TYPE)
  }

  /** The CPIM part of an invitation as the CPIM parser gives it. */
  datatype CpimPart = CpimPart(content: Option<string>, contentType: Option<string>, date: Option<int>)

  datatype FirstMessageKind = GeolocFirstMessage | FileTransferFirstMessage | TextFirstMessage

  /** The first message carried by a chat invitation. */
  datatype FirstMessage = FirstMessage(
    kind: FirstMessageKind,
    messageId: string,
    remote: ContactId,
    body: string,
    displayedRequested: bool,
    date: Option<int>)

  /** getFirstMessageFromCpim. `cpim` is the CPIM part (None when absent or unparsable),
    * `remote` the referred identity (None when it does not parse), `content` the
    * invitation's body, `decode` the UTF-8 decoding of StringUtils. The kind follows the
    * part's MIME type: geoloc first, then file transfer, then text; text and file
    * transfer bodies are decoded, a geolocation body is kept as the document it is. */
  function GetFirstMessageFromCpim(cpim: Option<CpimPart>, remote: Option<ContactId>,
                                   content: Option<string>, decode: string -> string)
    : (r: Option<FirstMessage>)
    ensures r.Some? <==> cpim.Some? && remote.Some? && GetMessageId(content).Some?
                         && cpim.value.content.Some? && cpim.value.contentType.Some?
    ensures r.Some? ==>
              && r.value.messageId == GetMessageId(content).value
              && r.value.remote == remote.value
              && r.value.body == (if r.value.kind == GeolocFirstMessage then cpim.value.content.value
                                  else decode(cpim.value.content.value))
              && r.value.displayedRequested == IsImdnDisplayedRequested(content)
              && r.value.date == cpim.value.date
    ensures r.Some? ==>
              var mime := cpim.value.contentType.value;
              && (r.value.kind == GeolocFirstMessage <==> Contains(mime, GEOLOC_MIME_TYPE))
              && (r.value.kind == FileTransferFirstMessage <==>
                    !Contains(mime, GEOLOC_MIME_TYPE) && Contains(mime, FILE_TRANSFER_MIME_TYPE))
  {
    if cpim.None? || remote.None? then None
    else
      var msgId := GetMessageId(content);
      var part := cpim.value;
      if msgId.None? || part.content.None? || part.contentType.None? then None
      else
        var mime := part.contentType.value;
        var kind :=
          if IndexOf(mime, GEOLOC_MIME_TYPE) != -1 then GeolocFirstMessage
          else if IndexOf(mime, FILE_TRANSFER_MIME_TYPE) != -1 then FileTransferFirstMessage
          else TextFirstMessage;
        var body := if kind == GeolocFirstMessage then part.content.value else decode(part.content.value);
        Some(FirstMessage(kind, msgId.value, remote.value, body,
                          IsImdnDisplayedRequested(content), part.date))
  }

  /** getFirstMessageFromSubject: a text message made of a non-empty Subject, decoded from
    * UTF-8 by `decode`, under a freshly generated id (`generatedId`) and the current time
    * (`now`). */
  function GetFirstMessageFromSubject(subject: Option<string>, remote: Option<ContactId>,
                                      content: Option<string>, decode: string -> string,
                                      generatedId: string, now: int)
    : (r: Option<FirstMessage>)
    ensures r.Some? <==> subject.Some? && subject.value != [] && remote.Some?
    ensures r.Some? ==> r.value == FirstMessage(TextFirstMessage, generatedId, remote.value,
                                                decode(subject.value), IsImdnDisplayedRequested(content),
                                                Some(now))
  {
    if subject.None? || subject.value == [] then None
    else if remote.None? then None
    else Some(FirstMessage(TextFirstMessage, generatedId, remote.value, decode(subject.value),
                           IsImdnDisplayedRequested(content), Some(now)))
  }

  /** getFirstMessage: the CPIM part's message when there is one, else the Subject's. */
  function GetFirstMessage(cpim: Option<CpimPart>, subject: Option<string>, remote: Option<ContactId>,
                           content: Option<string>, decode: string -> string, generatedId: string,
                           now: int)
    : (r: Option<FirstMessage>)
    ensures GetFirstMessageFromCpim(cpim, remote, content, decode).Some? ==>
              r == GetFirstMessageFromCpim(cpim, remote, content, decode)
    ensures GetFirstMessageFromCpim(cpim, remote, content, decode).None? ==>
              r == GetFirstMessageFromSubject(subject, remote, content, decode, generatedId, now)
    ensures r.Some? ==> remote.Some? && r.value.remote == remote.value
  {
    var msg := GetFirstMessageFromCpim(cpim, remote, content, decode);
    if msg.Some? then msg else GetFirstMessageFromSubject(subject, remote, content, decode, generatedId, now)
  }
}
