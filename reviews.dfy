/** The review form, in its two copies (`ProductReview` and the `ReviewList`
    of the product page): field edits, the star rating and the submission,
    which appends the stored review to the parent's list. */
module Reviews {
  import opened Js
  import Api

  /** The form state. */
  datatype ReviewForm = ReviewForm(title: string, rating: int, description: string)

  const InitialForm := ReviewForm("", 5, "")

  /** A review as the server returns it. */
  datatype Review = Review(id: string, title: string, rating: int, description: string)

  /** The two named inputs of the form. */
  datatype FormField = Title | Description

  /** `{ ...prev, [name]: value }` for one of the named inputs. */
  function WithField(f: ReviewForm, name: FormField, value: string): (r: ReviewForm)
    ensures name == Title ==> r.title == value && r.description == f.description
    ensures name == Description ==> r.description == value && r.title == f.title
    ensures r.rating == f.rating
  {
    match name
    case Title => f.(title := value)
    case Description => f.(description := value)
  }

  /** An edit is overwritten by the next edit of the same field, and edits of
      different fields commute. */
  lemma FieldEdits(f: ReviewForm, a: FormField, b: FormField, u: string, v: string)
    ensures WithField(WithField(f, a, u), a, v) == WithField(f, a, v)
    ensures a != b ==> WithField(WithField(f, a, u), b, v) == WithField(WithField(f, b, v), a, u)
  {
  }

  /** The stars the form offers. */
  predicate IsStar(n: int)
  {
    1 <= n <= 5
  }

  /** Both text inputs carry `required`: the browser submits the form only
      when neither is empty. */
  predicate Complete(f: ReviewForm)
  {
    f.title != "" && f.description != ""
  }

  /** The untouched form cannot be submitted. */
  lemma InitialFormIncomplete(name: FormField, value: string)
    ensures !Complete(InitialForm)
    ensures !Complete(WithField(InitialForm, name, value))
  {
  }

  /** The request a submission sends: where, with which headers, carrying the
      form as it was at the press. */
  datatype ReviewRequest = ReviewRequest(target: Api.Target, headers: Entries<string>, body: ReviewForm)

  /** The parent's review list and the form. `reviews` stands for the list the
      parent passes down together with `setReviews`. */
  class ReviewPanel {
    const productId: string
    var reviews: seq<Review>
    var newReview: ReviewForm
    var isSubmitting: bool

    /** The rating is always one of the five stars. */
    predicate Valid()
      reads this
    {
      IsStar(newReview.rating)
    }

    constructor (productId: string, reviews: seq<Review>)
      ensures this.productId == productId && this.reviews == reviews
      ensures newReview == InitialForm && !isSubmitting
      ensures Valid()
    {
      this.productId := productId;
      this.reviews := reviews;
      newReview := InitialForm;
      isSubmitting := false;
    }

    method HandleInputChange(name: FormField, value: string)
      requires Valid()
      modifies this`newReview
      ensures newReview == WithField(old(newReview), name, value)
      ensures Valid()
    {
      newReview := WithField(newReview, name, value);
    }

    /** Clicking star n. */
    method ClickStar(n: int)
      requires IsStar(n)
      modifies this`newReview
      ensures newReview == old(newReview).(rating := n)
      ensures Valid()
    {
      newReview := newReview.(rating := n);
    }

    /** Pressing "Submit Review": the browser runs the handler only when the
        button is enabled (no submission in flight) and both required fields
        are filled in; then the first half of `handleSubmit` runs. */
    method PressSubmit(stored: Option<string>) returns (request: Option<ReviewRequest>)
      modifies this`isSubmitting
      ensures request.Some? <==> !old(isSubmitting) && Complete(newReview)
      ensures request.Some? ==> isSubmitting && request.value.body == newReview
      ensures request.Some? ==> request.value.target == Api.TargetOf(Api.AddReview(productId))
      ensures request.Some? ==> request.value.headers == Api.RequestHeaders(Api.AddReview(productId), [], stored)
      ensures request.None? ==> isSubmitting == old(isSubmitting)
    {
      if !SubmitDisabled() && Complete(newReview) {
        var r := BeginSubmit(stored);
        request := Some(r);
      } else {
        request := None;
      }
    }

    /** The first half of `handleSubmit`: the flag goes up and the request is
        built from the current form and the stored token. */
    method BeginSubmit(stored: Option<string>) returns (request: ReviewRequest)
      modifies this`isSubmitting
      ensures isSubmitting
      ensures request.target == Api.TargetOf(Api.AddReview(productId))
      ensures request.headers == Api.RequestHeaders(Api.AddReview(productId), [], stored)
      ensures request.body == newReview
    {
      isSubmitting := true;
      request := ReviewRequest(
        Api.TargetOf(Api.AddReview(productId)),
        Api.RequestHeaders(Api.AddReview(productId), [], stored),
        newReview);
    }

    /** The second half: on success the stored review is appended and the
        form reset; on failure both stay; the flag comes down either way. */
    method FinishSubmit(response: Response<Review>)
      requires Valid()
      modifies this`reviews, this`newReview, this`isSubmitting
      ensures response.Ok? ==> reviews == old(reviews) + [response.data] && newReview == InitialForm
      ensures response.Failed? ==> reviews == old(reviews) && newReview == old(newReview)
      ensures !isSubmitting
      ensures Valid()
    {
      if response.Ok? {
        reviews := reviews + [response.data];
        newReview := InitialForm;
      }
      isSubmitting := false;
    }

    /** A press of the button followed by the server's answer: nothing
        happens while a submission is in flight or a required field is empty;
        otherwise the form at the press is sent, success appends the stored
        review and resets the form, failure keeps both, and the flag comes
        down. */
    method HandleSubmit(stored: Option<string>, response: Response<Review>) returns (request: Option<ReviewRequest>)
      requires Valid()
      modifies this`reviews, this`newReview, this`isSubmitting
      ensures request.Some? <==> !old(isSubmitting) && Complete(old(newReview))
      ensures request.Some? ==> request.value.body == old(newReview) && !isSubmitting
      ensures request.Some? ==> request.value.headers == Api.RequestHeaders(Api.AddReview(productId), [], stored)
      ensures request.Some? && response.Ok? ==> reviews == old(reviews) + [response.data] && newReview == InitialForm
      ensures request.Some? && response.Failed? ==> reviews == old(reviews) && newReview == old(newReview)
      ensures request.None? ==> reviews == old(reviews) && newReview == old(newReview) && isSubmitting == old(isSubmitting)
      ensures Valid()
    {
      request := PressSubmit(stored);
      if request.Some? {
        FinishSubmit(response);
      }
    }

    /** The submit button is disabled while a submission is in flight. */
    function SubmitDisabled(): bool
      reads this
    {
      isSubmitting
    }
  }
}
