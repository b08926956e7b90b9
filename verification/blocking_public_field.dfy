/**
 * The PublicFieldBlocker of the BlockingPublicField sample: a blocker with
 * the inherited empty callbacks whose decision is whether the head field is
 * declared public.
 */
module BlockingPublicField {
  import opened Results
  import opened Identifiers
  import opened Fields
  import opened Chains
  import opened Blockers

  /** No state: the callbacks inherited from AbstractBlocker do nothing. */
  datatype PublicFieldBlocker = PublicFieldBlocker
  {
    /** Modifier.isPublic(head modifiers): the ACC_PUBLIC flag is set, so a
        head that is only private, or has no modifiers, passes. */
    predicate Block(c: FieldChain)
      ensures Block(c) <==> (c.Head().modifiers & ACC_PUBLIC) == ACC_PUBLIC
      ensures c.Head().modifiers == ACC_PRIVATE || c.Head().modifiers == 0 ==> !Block(c)
    {
      (c.Head().modifiers & ACC_PUBLIC) != 0
    }
  }

  /** Only the head's ACC_PUBLIC flag decides: the other flags, the kind of
      the head, its identifier and the fields before it are never read. */
  lemma PublicFlagDecides(b: PublicFieldBlocker, c: FieldChain, d: FieldChain)
    requires (c.Head().modifiers & ACC_PUBLIC) == (d.Head().modifiers & ACC_PUBLIC)
    ensures b.Block(c) <==> b.Block(d)
  {
  }

  /** A head that is only private is never blocked, node or leaf. */
  lemma PrivateNeverBlocked(b: PublicFieldBlocker, c: FieldChain)
    requires c.Head().modifiers == ACC_PRIVATE
    ensures !b.Block(c)
  {
  }

  // The sample's Car: `name` and `roof` are public, `brand` and `wheel`
  // private; inside Wheel, `description` is public and `weight` private.

  const CAR := CtsField(Ident("Car", None), 0, true)
  const NAME := CtsField(Ident("String", Some("name")), ACC_PUBLIC, false)
  const BRAND := CtsField(Ident("String", Some("brand")), ACC_PRIVATE, false)
  const WHEEL := CtsField(Ident("Wheel", Some("wheel")), ACC_PRIVATE, true)
  const ROOF := CtsField(Ident("Roof", Some("roof")), ACC_PUBLIC, true)
  const DESCRIPTION := CtsField(Ident("String", Some("description")), ACC_PUBLIC, false)
  const WEIGHT := CtsField(Ident("int", Some("weight")), ACC_PRIVATE, false)

  /** The fields the sample's comments mark as blocked are the ones blocked. */
  lemma CarFieldsBlocked(b: PublicFieldBlocker)
    ensures b.Block(CtsFieldChain([CAR, NAME]))
    ensures !b.Block(CtsFieldChain([CAR, BRAND]))
    ensures !b.Block(CtsFieldChain([CAR, WHEEL]))
    ensures b.Block(CtsFieldChain([CAR, ROOF]))
    ensures b.Block(CtsFieldChain([CAR, WHEEL, DESCRIPTION]))
    ensures !b.Block(CtsFieldChain([CAR, WHEEL, WEIGHT]))
  {
  }
}
