/**
 * The supervisor and customer notifications. Sending is simulated by
 * writing the message to the log; `logged` says whether that succeeded,
 * and a notice is what reached the log.
 */
module NotificationService {
  import opened Base
  import opened Text
  import opened HelpRequestModel

  datatype Notice =
    | SupervisorNotice(message: string)
    | CustomerNotice(phone: string, message: string)

  /** Python's `value or fallback` on an optional string: `None` and `""` both fall back. */
  function OrElse(value: Option<string>, fallback: string): (r: string)
    ensures value.Some? && value.value != "" ==> r == value.value
    ensures value.None? || value.value == "" ==> r == fallback
  {
    if value.Some? && value.value != "" then value.value else fallback
  }

  const NoContext := "No additional context"

  const SupervisorOpening := "Hey! I need help answering a customer question.\n\n"
  const SupervisorClosing := "\nPlease respond through the admin panel to help this customer!\n"
  const CustomerOpening := "Hi! Thanks for your patience. Here's the answer to your question:\n\n"
  const CustomerClosing := "\nFeel free to call us again if you have more questions!\n"

  /**
   * `_format_supervisor_notification`: names the customer (by name, else by
   * phone), and always carries the phone, the question, the context (or a
   * placeholder) and the request id, each on its own labelled line.
   */
  function FormatSupervisorNotification(r: HelpRequest): (msg: string)
    ensures Contains(msg, "Customer: " + OrElse(r.customerName, r.customerPhone) + "\nPhone: " + r.customerPhone + "\n")
    ensures Contains(msg, "\nQuestion: " + r.question + "\n")
    ensures Contains(msg, "\nContext: " + OrElse(r.context, NoContext) + "\n")
    ensures Contains(msg, "\nRequest ID: " + r.requestId + "\n")
  {
    var who := "Customer: " + OrElse(r.customerName, r.customerPhone) + "\nPhone: " + r.customerPhone + "\n";
    var question := "\nQuestion: " + r.question + "\n";
    var context := "\nContext: " + OrElse(r.context, NoContext) + "\n";
    var id := "\nRequest ID: " + r.requestId + "\n";
    var s1 := SupervisorOpening + who;
    var s2 := s1 + question;
    var s3 := s2 + context;
    var s4 := s3 + id;
    ContainsAtEnd(SupervisorOpening, who);
    ContainsInPrefix(s1, question, who);
    ContainsInPrefix(s2, context, who);
    ContainsInPrefix(s3, id, who);
    ContainsInPrefix(s4, SupervisorClosing, who);
    ContainsAtEnd(s1, question);
    ContainsInPrefix(s2, context, question);
    ContainsInPrefix(s3, id, question);
    ContainsInPrefix(s4, SupervisorClosing, question);
    ContainsAtEnd(s2, context);
    ContainsInPrefix(s3, id, context);
    ContainsInPrefix(s4, SupervisorClosing, context);
    ContainsAtEnd(s3, id);
    ContainsInPrefix(s4, SupervisorClosing, id);
    s4 + SupervisorClosing
  }

  /** `_format_customer_notification`: the question and the answer, verbatim, each on a labelled line. */
  function FormatCustomerNotification(question: string, answer: string): (msg: string)
    ensures Contains(msg, "Your question: " + question + "\n")
    ensures Contains(msg, "\nAnswer: " + answer + "\n")
  {
    var q := "Your question: " + question + "\n";
    var a := "\nAnswer: " + answer + "\n";
    var s1 := CustomerOpening + q;
    var s2 := s1 + a;
    ContainsAtEnd(CustomerOpening, q);
    ContainsInPrefix(s1, a, q);
    ContainsInPrefix(s2, CustomerClosing, q);
    ContainsAtEnd(s1, a);
    ContainsInPrefix(s2, CustomerClosing, a);
    s2 + CustomerClosing
  }

  /** A missing or empty context is shown as the placeholder. */
  lemma MissingContextPlaceholder(r: HelpRequest)
    requires r.context.None? || r.context == Some("")
    ensures Contains(FormatSupervisorNotification(r), "\nContext: No additional context\n")
  {
    assert "\nContext: " + OrElse(r.context, NoContext) + "\n" == "\nContext: No additional context\n";
  }

  /** `notify_supervisor`: `True` with the message logged, or `False` when logging raised; it never throws. */
  function NotifySupervisor(r: HelpRequest, logged: bool): (sent: Option<Notice>)
    ensures sent.Some? <==> logged
    ensures sent.Some? ==> sent.value.SupervisorNotice? && Contains(sent.value.message, "\nQuestion: " + r.question + "\n")
  {
    if logged then Some(SupervisorNotice(FormatSupervisorNotification(r))) else None
  }

  /** `notify_customer`: the same containment, for the follow-up answer. */
  function NotifyCustomer(phone: string, question: string, answer: string, logged: bool): (sent: Option<Notice>)
    ensures sent.Some? <==> logged
    ensures sent.Some? ==> sent.value.CustomerNotice? && sent.value.phone == phone
                           && Contains(sent.value.message, "\nAnswer: " + answer + "\n")
  {
    if logged then Some(CustomerNotice(phone, FormatCustomerNotification(question, answer))) else None
  }
}
