/** The help centre (src/pages/HelpCenter.jsx): six FAQs filtered by topic
    and a case-insensitive term, an accordion that opens one answer at a
    time, and a support form that requires name, email, subject and message
    but renders inputs only for name and email. */
module HelpCenter {
  import opened Seqs
  import opened Text
  import opened Forms

  datatype Faq = Faq(id: nat, category: string, question: string, answer: string)

  const Answer1: string := "You can track your order by visiting the tracking page and entering your order number. You will also receive email updates with tracking information."
  const Answer2: string := "We offer standard shipping (5-7 business days), express shipping (2-3 business days), and overnight shipping for most locations."
  const Answer3: string := "We accept all major credit cards (Visa, MasterCard, American Express), PayPal, Apple Pay, and Google Pay for secure transactions."
  const Answer4: string := "We offer a 30-day return policy for most items. Items must be in original condition with tags attached. Some restrictions apply for certain product categories."
  const Answer5: string := "Click on \"Forgot Password\" on the login page and enter your email address. We will send you a secure link to reset your password."
  const Answer6: string := "Try clearing your browser cache, disabling browser extensions, or using a different browser. If the issue persists, contact our technical support team."

  const Faqs: seq<Faq> := [
    Faq(1, "orders", "How can I track my order?", Answer1),
    Faq(2, "orders", "What shipping options are available?", Answer2),
    Faq(3, "payments", "What payment methods do you accept?", Answer3),
    Faq(4, "returns", "What is your return policy?", Answer4),
    Faq(5, "account", "How do I reset my password?", Answer5),
    Faq(6, "technical", "The website is loading slowly. What should I do?", Answer6)
  ]

  /** The topic buttons' ids; 'all' is the wildcard. */
  const TopicIds: seq<string> := ["all", "orders", "payments", "returns", "account", "technical"]

  /** The FAQ is in the topic and its question or answer contains the term,
      both sides lower-cased. */
  predicate FaqMatches(category: string, searchTerm: string, faq: Faq)
  {
    (category == "all" || faq.category == category)
    && (Contains(Lower(faq.question), Lower(searchTerm)) || Contains(Lower(faq.answer), Lower(searchTerm)))
  }

  function FaqMatchesFn(category: string, searchTerm: string): Faq -> bool
  {
    (faq: Faq) => FaqMatches(category, searchTerm, faq)
  }

  /** `filteredFaqs`. */
  function FilteredFaqs(faqs: seq<Faq>, category: string, searchTerm: string): (r: seq<Faq>)
    ensures IsSubseq(r, faqs)
    ensures forall f :: f in r <==> f in faqs && FaqMatches(category, searchTerm, f)
    ensures forall f :: multiset(r)[f] == if FaqMatches(category, searchTerm, f) then multiset(faqs)[f] else 0
  {
    FilterMultiset(faqs, FaqMatchesFn(category, searchTerm));
    Filter(faqs, FaqMatchesFn(category, searchTerm))
  }

  function InTopic(category: string): Faq -> bool
  {
    (faq: Faq) => faq.category == category
  }

  /** With an empty term only the topic filters: 'all' keeps every FAQ in
      order, any other topic keeps the FAQs filed under it. */
  lemma EmptyTermFiltersByTopic(faqs: seq<Faq>, category: string)
    ensures category == "all" ==> FilteredFaqs(faqs, category, "") == faqs
    ensures category != "all" ==> FilteredFaqs(faqs, category, "") == Filter(faqs, InTopic(category))
  {
    forall f: Faq {
      ContainsEmpty(Lower(f.question));
    }
    if category == "all" {
      FilterAll(faqs, FaqMatchesFn(category, ""));
    } else {
      FilterExt(faqs, FaqMatchesFn(category, ""), InTopic(category));
    }
  }

  /** So the page opens on all six FAQs. */
  lemma InitialShowsSix()
    ensures FilteredFaqs(Faqs, "all", "") == Faqs && |Faqs| == 6
  {
    EmptyTermFiltersByTopic(Faqs, "all");
  }

  /** The accordion's click: `expandedFaq === id ? null : id`. */
  function Toggle(expanded: Option<nat>, id: nat): (r: Option<nat>)
    ensures r.Some? <==> expanded != Some(id)
    ensures r.Some? ==> r.value == id
  {
    if expanded == Some(id) then None else Some(id)
  }

  /** The answer a FAQ shows is open when its id is the expanded one. */
  predicate Expanded(expanded: Option<nat>, faq: Faq)
  {
    expanded == Some(faq.id)
  }

  /** The FAQ ids are distinct, so at most one answer is open at a time, and
      a click on a closed FAQ opens it and closes whichever other one was open. */
  lemma AtMostOneExpanded(expanded: Option<nat>, i: nat, j: nat)
    requires i < j < |Faqs|
    ensures !(Expanded(expanded, Faqs[i]) && Expanded(expanded, Faqs[j]))
    ensures Expanded(Toggle(expanded, Faqs[i].id), Faqs[i]) <==> !Expanded(expanded, Faqs[i])
    ensures !Expanded(Toggle(expanded, Faqs[i].id), Faqs[j])
  {
    assert Faqs[i].id == i + 1 && Faqs[j].id == j + 1;
  }

  /** The support form's defaults: everything empty, priority 'medium'. */
  const DefaultSupportForm: Form := map[
    "name" := "", "email" := "", "subject" := "", "message" := "", "priority" := "medium"]

  /** What the submit handler checks; the priority is not among them. */
  const SupportRequired: seq<string> := ["name", "email", "subject", "message"]

  /** The inputs the page renders for the form. */
  const RenderedSupportFields: seq<string> := ["name", "email"]

  /** The submit check spelled out: all four text fields truthy. */
  lemma SupportRequiredFields(form: Form)
    ensures AllFilled(form, SupportRequired) <==>
      Filled(form, "name") && Filled(form, "email") && Filled(form, "subject") && Filled(form, "message")
  {
    if Filled(form, "name") && Filled(form, "email") && Filled(form, "subject") && Filled(form, "message") {
      forall i | 0 <= i < |SupportRequired| ensures Filled(form, SupportRequired[i]) {
        assert SupportRequired[i] == "name" || SupportRequired[i] == "email"
          || SupportRequired[i] == "subject" || SupportRequired[i] == "message";
      }
    }
    if AllFilled(form, SupportRequired) {
      assert Filled(form, SupportRequired[0]) && Filled(form, SupportRequired[1]);
      assert Filled(form, SupportRequired[2]) && Filled(form, SupportRequired[3]);
    }
  }

  /** The priority never decides a submit. */
  lemma PriorityNotChecked(form: Form, value: string)
    ensures AllFilled(Change(form, "priority", value), SupportRequired) <==> AllFilled(form, SupportRequired)
  {
    assert "priority" !in SupportRequired;
    ChangeOutsideRequired(form, SupportRequired, "priority", value);
  }

  /** Whatever a visitor types into the rendered inputs, the subject stays
      empty, so every submit through the page is rejected (and a rejected
      submit leaves the form as it was, so this carries on for good). */
  lemma UiSubmitAlwaysRejected(events: seq<InputEvent>)
    requires forall i :: 0 <= i < |events| ==> events[i].name in RenderedSupportFields
    ensures !AllFilled(ApplyEvents(DefaultSupportForm, events), SupportRequired)
  {
    SubjectNotRendered();
    DefaultSubjectEmpty();
    SubjectStaysEmpty(DefaultSupportForm, events);
  }

  /** Events that never name the subject keep an empty subject empty, and
      with it the submit rejected. */
  lemma SubjectStaysEmpty(form: Form, events: seq<InputEvent>)
    requires !Filled(form, "subject")
    requires forall i :: 0 <= i < |events| ==> events[i].name != "subject"
    ensures !AllFilled(ApplyEvents(form, events), SupportRequired)
  {
    EventsKeepUntouched(form, events, "subject");
    SupportRequiredFields(ApplyEvents(form, events));
  }

  lemma DefaultSubjectEmpty()
    ensures !Filled(DefaultSupportForm, "subject")
  {
  }

  lemma SubjectNotRendered()
    ensures "subject" !in RenderedSupportFields
  {
  }

  /** The page's own state; the form lives in its `FormState`. */
  class HelpCenterPage {
    var searchTerm: string
    var selectedCategory: string
    var expandedFaq: Option<nat>
    const supportForm: FormState

    constructor()
      ensures searchTerm == "" && selectedCategory == "all" && expandedFaq == None
      ensures fresh(supportForm)
      ensures supportForm.fields == DefaultSupportForm && supportForm.defaults == DefaultSupportForm
      ensures supportForm.required == SupportRequired
    {
      searchTerm := "";
      selectedCategory := "all";
      expandedFaq := None;
      supportForm := new FormState(DefaultSupportForm, SupportRequired);
    }

    /** The FAQs on screen. */
    function Visible(): (r: seq<Faq>)
      reads this
      ensures IsSubseq(r, Faqs)
      ensures forall f :: f in r <==> f in Faqs && FaqMatches(selectedCategory, searchTerm, f)
    {
      FilteredFaqs(Faqs, selectedCategory, searchTerm)
    }

    /** The search box. */
    method SetSearchTerm(term: string)
      modifies this
      ensures searchTerm == term && selectedCategory == old(selectedCategory) && expandedFaq == old(expandedFaq)
    {
      searchTerm := term;
    }

    /** A topic button. */
    method SelectCategory(i: nat)
      requires i < |TopicIds|
      modifies this
      ensures selectedCategory == TopicIds[i] && searchTerm == old(searchTerm) && expandedFaq == old(expandedFaq)
    {
      selectedCategory := TopicIds[i];
    }

    /** A question's button. */
    method ToggleFaq(id: nat)
      modifies this
      ensures expandedFaq == Toggle(old(expandedFaq), id)
      ensures searchTerm == old(searchTerm) && selectedCategory == old(selectedCategory)
    {
      expandedFaq := Toggle(expandedFaq, id);
    }
  }
}
