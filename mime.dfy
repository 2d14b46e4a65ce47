/**
 * Email messages as the mail code builds them with the `email` package: a body
 * chosen by the MIME class constructor, the header fields the code sets, and the
 * attached parts. What the constructors add on their own (Content-Type,
 * MIME-Version, Content-Transfer-Encoding), the encoding of bodies and the
 * serialisation are the `email` package's and are represented by `MailLib.asString`.
 */
module Mime {
  import opened Wrappers
  import opened Utf8

  /** The MIME constructor a message was built with, and its arguments. */
  datatype Body =
    | Text(subtype: string, charset: string, text: string)       // MIMEText(text, subtype, charset)
    | BinaryText(subtype: string, charset: string, data: seq<byte>) // MIMEText(data, subtype, charset), bytes payload
    | Image(subtype: string, data: seq<byte>)                    // MIMEImage(data, subtype)
    | Multipart                                                  // MIMEMultipart()

  /** A header value: a plain string, or a `Header(s, 'utf-8')` object serialised as encoded-words. */
  datatype FieldValue = Plain(s: string) | Encoded(s: string)

  /** A header parameter; `Rfc2231` is the `(charset, language, value)` triple form. */
  datatype ParamValue = Simple(s: string) | Rfc2231(charset: string, language: string, value: string)

  datatype Param = Param(name: string, value: ParamValue)

  datatype Field = Field(name: string, value: FieldValue, params: seq<Param>)

  /** A message as a value: its body, its fields in the order they were added, its parts. */
  datatype Mime = Mime(body: Body, fields: seq<Field>, parts: seq<Mime>)

  /**
   * The `email` package functions the mail code calls, left uninterpreted:
   *   - `encodeHeader(s)` is `Header(s, 'utf-8').encode()` (RFC 2047 encoded-words);
   *   - `parseAddr` and `formatAddr` are `email.utils.parseaddr` and
   *     `email.utils.formataddr(pair, charset='utf-8')` (section 3.4 of RFC 5322);
   *     `formatAddr` gives `None` where it raises (a non-ASCII mailbox, say);
   *   - `asString(m)` is `m.as_string()`.
   */
  datatype MailLib = MailLib(
    encodeHeader: string -> string,
    parseAddr: string -> (string, string),
    formatAddr: ((string, string)) -> Option<string>,
    asString: Mime -> string)

  /** An `email.message.Message` object, which the mail code changes in place. */
  class Message {
    const body: Body
    var fields: seq<Field>
    var parts: seq<Mime>

    function Value(): (m: Mime)
      reads this
      ensures m.body == body && m.fields == fields && m.parts == parts
    {
      Mime(body, fields, parts)
    }

    constructor (body: Body)
      ensures this.body == body && fields == [] && parts == []
    {
      this.body := body;
      fields := [];
      parts := [];
    }

    /** `message[name] = value`: appends a field; an existing field of that name stays. */
    method Set(name: string, value: FieldValue)
      modifies this
      ensures fields == old(fields) + [Field(name, value, [])] && parts == old(parts)
    {
      fields := fields + [Field(name, value, [])];
    }

    /** `message.add_header(name, value, **params)`. */
    method AddHeader(name: string, value: FieldValue, params: seq<Param>)
      modifies this
      ensures fields == old(fields) + [Field(name, value, params)] && parts == old(parts)
    {
      fields := fields + [Field(name, value, params)];
    }

    /** `message.attach(part)`: the part goes after those already attached. */
    method Attach(part: Mime)
      modifies this
      ensures parts == old(parts) + [part] && fields == old(fields)
    {
      parts := parts + [part];
    }
  }
}
