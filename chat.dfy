/** The chatbot endpoint up to the point where it would call the external
    model: method and input checks, then a first-match scan of the lower-cased
    message for the keys of an ordered table of canned answers. */
module Chat {
  import opened Common

  /** The table's keys, lower-case phrases, in the table's own order
      (insertion order, which is also `for...in` order for these non-numeric
      keys). */
  const Keys: seq<string> :=
    [
      "courses",
      "pricing",
      "payment",
      "auth",
      "chat",
      "features",
      "support",
      "hi",
      "hello",
      "hey",
      "how are you",
      "how's it going",
      "where is your branch",
      "location",
      "course content",
      "certification",
      "refund policy",
      "system requirements",
      "contact support",
      "leaderboard",
      "code editor",
      "course duration",
      "instructors",
      "free trial",
      "course updates",
      "group discounts"
    ]

  /** `Answers[i]` is the canned answer stored under `Keys[i]`. */
  const Answers: seq<string> :=
    [
      "We offer a variety of courses! You can check them out on our Courses page.",
      "Our LMS provides flexible pricing plans. Visit the Pricing page for details.",
      "We accept payments through Razorpay, supporting UPI, credit/debit cards, and net banking.",
      "We use Clerk for authentication, ensuring a secure login and signup process.",
      "This AI chatbot is here to help you with any queries related to our LMS platform.",
      "Our LMS platform includes real-time chat, a leaderboard, and an online code editor.",
      "You can reach out to our support team anytime for assistance with your account or courses.",
      "Hello! \U{1F60A} How can I assist you with the LMS platform today?",
      "Hey there! \U{1F44B} Need help with anything related to our LMS?",
      "Hi! \U{1F44B} What can I do for you today?",
      "I'm just a chatbot, but I'm feeling great! \U{1F603} How can I assist you today?",
      "Everything's running smoothly! \U{1F680} What can I help you with?",
      "Our LMS platform is fully online! \U{1F30D} You can access it anytime, anywhere.",
      "We operate digitally and are accessible worldwide! \U{1F30E} No physical branches, just seamless learning online.",
      "Our courses include video lectures, quizzes, assignments, and hands-on projects.",
      "Yes, we provide certificates upon course completion. You can download them from your dashboard.",
      "We offer a 30-day money-back guarantee if you're not satisfied with the course.",
      "You only need a modern browser and a stable internet connection to access our platform.",
      "You can contact our support team at support@lmsplatform.com or through the Help Center.",
      "The leaderboard shows the top performers in each course. Check it out to see where you stand!",
      "Our built-in code editor supports multiple programming languages and provides real-time feedback.",
      "Course durations vary, but most courses are designed to be completed in 4-6 weeks.",
      "Our instructors are industry experts with years of experience in their respective fields.",
      "Yes, we offer a 7-day free trial for all our courses. Sign up to get started!",
      "We regularly update our courses to include the latest industry trends and technologies.",
      "We offer group discounts for teams and organizations. Contact sales@lmsplatform.com for details."
    ]

  const SupportKey := 6
  const ContactSupportKey := 18

  lemma TableShape()
    ensures |Keys| == |Answers| == 26
    ensures Keys[SupportKey] == "support" && Keys[ContactSupportKey] == "contact support"
  {
  }

  /** The index of the first key that occurs in `text`. */
  function FirstMatch(keys: seq<string>, text: string): (r: Option<nat>)
    ensures r.Some? ==> r.value < |keys| && Includes(text, keys[r.value])
    ensures r.Some? ==> forall j :: 0 <= j < r.value ==> !Includes(text, keys[j])
    ensures r.None? ==> forall j :: 0 <= j < |keys| ==> !Includes(text, keys[j])
  {
    if keys == [] then None
    else if Includes(text, keys[0]) then Some(0)
    else
      match FirstMatch(keys[1..], text)
      case None => None
      case Some(k) => Some(k + 1)
  }

  /** The canned answer for a message: the answer of the first key, in table
      order, that occurs in the lower-cased message. */
  function CannedReply(message: string): (r: Option<string>)
    ensures r.Some? <==> exists j :: 0 <= j < |Keys| && Includes(Lower(message), Keys[j])
    ensures r.Some? ==>
      exists i :: (0 <= i < |Keys| && r.value == Answers[i] && Includes(Lower(message), Keys[i])
                   && forall j :: 0 <= j < i ==> !Includes(Lower(message), Keys[j]))
  {
    TableShape();
    match FirstMatch(Keys, Lower(message))
    case None => None
    case Some(i) => Some(Answers[i])
  }

  datatype Body = Message(message: string) | Reply(reply: string)

  /** Either an answer, or the point where the handler turns to the external
      model with the original message. */
  datatype Outcome = Respond(status: int, body: Body) | AskModel(message: string)

  /** The handler. `message` is `req.body.message` when it is a string, and
      `None` when it is missing or of another type. */
  function Handle(verb: string, message: Option<string>): (o: Outcome)
    ensures verb != "POST" ==> o == Respond(405, Message("Method Not Allowed"))
    ensures verb == "POST" && !Truthy(message) ==> o == Respond(400, Message("Invalid message input"))
    ensures o.AskModel? <==> verb == "POST" && Truthy(message) && CannedReply(message.value).None?
    ensures o.AskModel? ==> o.message == message.value
    ensures o.Respond? && o.status == 200 ==> o.body == Reply(CannedReply(message.value).value)
    ensures verb == "POST" && Truthy(message) && CannedReply(message.value).Some? ==>
      o == Respond(200, Reply(CannedReply(message.value).value))
  {
    if verb != "POST" then Respond(405, Message("Method Not Allowed"))
    else if !Truthy(message) then Respond(400, Message("Invalid message input"))
    else
      match CannedReply(message.value)
      case Some(answer) => Respond(200, Reply(answer))
      case None => AskModel(message.value)
  }

  /** A message and its upper-cased form get the same canned answer. */
  lemma CaseIgnored(message: string)
    ensures CannedReply(Upper(message)) == CannedReply(message)
    ensures Truthy(Some(Upper(message))) == Truthy(Some(message))
  {
    LowerOfUpper(message);
  }

  /** A key that contains an earlier key is never the first match: the
      earlier key occurs wherever the later one does. */
  lemma Shadowed(keys: seq<string>, text: string, early: nat, late: nat)
    requires early < late < |keys| && Includes(keys[late], keys[early])
    ensures FirstMatch(keys, text) != Some(late)
  {
    if FirstMatch(keys, text) == Some(late) {
      IncludesTransitive(text, keys[late], keys[early]);
      assert false;
    }
  }

  /** "contact support" comes after "support" and contains it, so its answer
      is never the one given. */
  lemma ContactSupportNeverAnswered(message: string)
    ensures FirstMatch(Keys, Lower(message)) != Some(ContactSupportKey)
  {
    TableShape();
    assert OccursAt("contact support", "support", 8);
    Shadowed(Keys, Lower(message), SupportKey, ContactSupportKey);
  }
}
