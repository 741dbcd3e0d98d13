/**
 * The help page: three fixed lists of questions and answers, a search box that
 * narrows them case-insensitively, and a contact form.
 */
module HelpPage {
  import opened Text
  import opened Lists

  datatype Faq = Faq(question: string, answer: string)

  const FARMER_FAQS: seq<Faq> := [
    Faq("How do I list my produce?", "Navigate to 'My Produce' from your dashboard and click 'Add New Produce'. Fill in the details, add photos, and set your price. Our AI assistant can even help suggest prices!"),
    Faq("How do market insights work?", "The 'Market Insights' page provides AI-powered data on local price trends and demand for various produce categories, helping you make informed decisions."),
    Faq("How do I get paid?", "Currently, HarvestHub AI facilitates connections. Payment terms are arranged directly between you and the buyer. Future updates may include integrated payment options.")
  ]

  const BUYER_FAQS: seq<Faq> := [
    Faq("How do I find specific produce?", "Use the 'Find Produce' page (Marketplace). You can search by name, category, location, and apply various filters like 'organic'."),
    Faq("How do I contact a farmer?", "On a produce detail page or farmer profile page, click the 'Contact Farmer' or 'Express Interest' button to send them a message directly through our platform."),
    Faq("Is the produce certified organic?", "Farmers can tag their produce with certifications like 'organic'. Always check the listing details and feel free to ask the farmer directly for more information about their practices.")
  ]

  const ACCOUNT_FAQS: seq<Faq> := [
    Faq("How do I reset my password?", "On the Login page, click the 'Forgot Password?' link and follow the instructions sent to your email."),
    Faq("How do I update my profile information?", "Go to your 'Account Settings' or 'My Profile' page from the user dropdown menu in the navigation bar.")
  ]

  const NO_RESULTS := "No FAQs found matching your search term."

  function AllFaqs(): seq<Faq> {
    FARMER_FAQS + BUYER_FAQS + ACCOUNT_FAQS
  }

  /** The question or the answer contains the term, ignoring case. */
  predicate Matches(faq: Faq, term: string) {
    Contains(Lower(faq.question), Lower(term)) || Contains(Lower(faq.answer), Lower(term))
  }

  function MatchesTerm(term: string): Faq -> bool {
    (faq: Faq) => Matches(faq, term)
  }

  /** `filteredFaqs` over the questions `all`: all of them while the box is empty, else the matching ones. */
  function FilteredFaqs(all: seq<Faq>, term: string): (r: seq<Faq>)
    ensures term == "" ==> r == all
    ensures term != "" ==> forall faq :: faq in r <==> faq in all && Matches(faq, term)
    ensures IsSubseq(r, all)
  {
    if term != "" then Filter(all, MatchesTerm(term))
    else IsSubseqRefl(all); all
  }

  function ShownIn(all: seq<Faq>, term: string): Faq -> bool {
    (faq: Faq) => faq in FilteredFaqs(all, term) || term == ""
  }

  /** The questions one section lists. */
  function SectionShown(section: seq<Faq>, all: seq<Faq>, term: string): seq<Faq> {
    Filter(section, ShownIn(all, term))
  }

  /** The "nothing found" line. */
  predicate ShowsNoResults(all: seq<Faq>, term: string) {
    |FilteredFaqs(all, term)| == 0 && term != ""
  }

  /** An empty search box lists every question of every section. */
  lemma EmptyTermShowsEverything(section: seq<Faq>, all: seq<Faq>)
    ensures FilteredFaqs(all, "") == all
    ensures SectionShown(section, all, "") == section
  {
    FilterAll(section, ShownIn(all, ""));
  }

  /** A section of the page lists, in its own order, exactly its questions that match the term. */
  lemma SectionShowsItsMatches(section: seq<Faq>, all: seq<Faq>, term: string)
    requires forall faq :: faq in section ==> faq in all
    requires term != ""
    ensures SectionShown(section, all, term) == Filter(section, MatchesTerm(term))
  {
    FilterCongruent(section, ShownIn(all, term), MatchesTerm(term));
  }

  /** "No FAQs found" appears exactly when a term is typed and no section lists anything. */
  lemma NoResultsIffSectionsEmpty(farmers: seq<Faq>, buyers: seq<Faq>, account: seq<Faq>, term: string)
    ensures var all := farmers + buyers + account;
      ShowsNoResults(all, term) <==>
        term != "" && SectionShown(farmers, all, term) == [] && SectionShown(buyers, all, term) == []
          && SectionShown(account, all, term) == []
  {
    var all := farmers + buyers + account;
    if term != "" {
      var f := FilteredFaqs(all, term);
      if f != [] {
        var x := f[0];
        assert x in f && x in all;
        if x in farmers {
          assert x in SectionShown(farmers, all, term);
        } else if x in buyers {
          assert x in SectionShown(buyers, all, term);
        } else {
          assert x in SectionShown(account, all, term);
        }
      } else {
        NothingShown(farmers, all, term);
        NothingShown(buyers, all, term);
        NothingShown(account, all, term);
      }
    }
  }

  lemma NothingShown(section: seq<Faq>, all: seq<Faq>, term: string)
    requires term != "" && FilteredFaqs(all, term) == []
    ensures SectionShown(section, all, term) == []
  {
    FilterNone(section, ShownIn(all, term));
  }

  /** The search ignores the case of the term. */
  lemma SearchIgnoresCase(all: seq<Faq>, term: string)
    ensures FilteredFaqs(all, Lower(term)) == FilteredFaqs(all, term)
  {
    LowerIdempotent(term);
    if term != "" {
      assert Lower(term) != "";
      FilterCongruent(all, MatchesTerm(Lower(term)), MatchesTerm(term));
    }
  }

  /** A field of the contact form. */
  datatype ContactField = Name | Email | Subject | Body

  datatype ContactForm = ContactForm(name: string, email: string, subject: string, message: string)

  /** `{ ...contactForm, [field]: value }`. */
  function WithField(form: ContactForm, field: ContactField, value: string): (r: ContactForm)
    ensures field == Name ==> r == form.(name := value)
    ensures field == Email ==> r == form.(email := value)
    ensures field == Subject ==> r == form.(subject := value)
    ensures field == Body ==> r == form.(message := value)
  {
    match field
    case Name => form.(name := value)
    case Email => form.(email := value)
    case Subject => form.(subject := value)
    case Body => form.(message := value)
  }

  class HelpView {
    var searchTerm: string
    var contact: ContactForm
    var submitted: bool

    /** The three sections as listed for the current search term. */
    function Sections(): (seq<Faq>, seq<Faq>, seq<Faq>)
      reads this
    {
      (SectionShown(FARMER_FAQS, AllFaqs(), searchTerm),
       SectionShown(BUYER_FAQS, AllFaqs(), searchTerm),
       SectionShown(ACCOUNT_FAQS, AllFaqs(), searchTerm))
    }

    /** The "nothing found" line is shown. */
    predicate NoResults()
      reads this
    {
      ShowsNoResults(AllFaqs(), searchTerm)
    }

    method Search(term: string)
      modifies this`searchTerm
      ensures searchTerm == term
    {
      searchTerm := term;
    }

    constructor ()
      ensures searchTerm == "" && contact == ContactForm("", "", "", "") && !submitted
    {
      searchTerm := "";
      contact := ContactForm("", "", "", "");
      submitted := false;
    }

    /** `handleContactChange`. */
    method ContactChange(field: ContactField, value: string)
      modifies this`contact
      ensures contact == WithField(old(contact), field, value)
    {
      contact := WithField(contact, field, value);
    }

    /** `handleContactSubmit`: the form is replaced by the thank-you note; the fields stay as typed. */
    method ContactSubmit()
      modifies this`submitted
      ensures submitted
    {
      submitted := true;
    }
  }
}
