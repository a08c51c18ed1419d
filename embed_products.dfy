/**
 * The embedding builder: every catalog product becomes a text document with
 * its metadata and id, and the platform description and FAQs are appended
 * after each product. The three lists grow in lockstep and are handed to the
 * vector collection once per product. Computing the embeddings is left out;
 * the collection records the batches it is given.
 */
module EmbedProducts {
  import opened Wrappers
  import opened Text

  /**
   * A product as the Fake Store sends it, each field possibly absent; the
   * price is held as its Python `str()` text.
   */
  datatype RawProduct = RawProduct(id: Option<int>, title: Option<string>, description: Option<string>,
                                   category: Option<string>, price: Option<string>, image: Option<string>)

  datatype Faq = Faq(question: string, answer: string, topic: string)

  /** The platform information: a description and the FAQ list. */
  datatype HubInfo = HubInfo(description: string, faqs: seq<Faq>)

  /** A metadata record, one shape per kind of document. */
  datatype Meta =
    | ProductMeta(productId: string, title: string, price: string, category: string, image: string,
                  description: string)
    | HubMeta(topic: string, contentType: string)
    | FaqMeta(topic: string, question: string, answer: string, contentType: string)

  /** The key names a metadata record is written with. */
  function MetaKeys(m: Meta): set<string> {
    match m
    case ProductMeta(_, _, _, _, _, _) => {"product_id", "title", "price", "category", "image", "description"}
    case HubMeta(_, _) => {"type", "topic", "content-type"}
    case FaqMeta(_, _, _, _) => {"type", "topic", "question", "answer", "content-type"}
  }

  /**
   * Only platform documents are tagged with a `type`; no record has the
   * `content_type` key the chatbot's semantic search reads, since the builder
   * spells it `content-type`.
   */
  lemma TypeMarksHubInfo(m: Meta)
    ensures "type" in MetaKeys(m) <==> !m.ProductMeta?
    ensures "content_type" !in MetaKeys(m)
    ensures m.ProductMeta? ==> "content-type" !in MetaKeys(m)
  {
    assert "type"[0] == 't' && "type"[1] == 'y';
    assert "content_type"[7] == '_';
  }

  const DocLead := "Product: "
  const CategoryLabel := ". Category: "
  const DescriptionLabel := ". Description: "
  const PriceLabel := ". Price: $"

  /** `str(product.get('id'))`: an absent id reads `None`. */
  function IdText(id: Option<int>): string {
    match id
    case None => "None"
    case Some(n) => IntToString(n)
  }

  /** `create_product_document`: the fields in a fixed frame, an absent one as the empty string. */
  function ProductDocument(p: RawProduct): (r: string)
    ensures |r| == |DocLead| + |CategoryLabel| + |DescriptionLabel| + |PriceLabel|
                   + |p.title.GetOr("")| + |p.category.GetOr("")| + |p.description.GetOr("")| + |p.price.GetOr("")|
    ensures r[..|DocLead|] == DocLead
    ensures r[|r| - |PriceLabel| - |p.price.GetOr("")|..] == PriceLabel + p.price.GetOr("")
  {
    var head := DocLead + p.title.GetOr("");
    var rest := CategoryLabel + p.category.GetOr("") + DescriptionLabel + p.description.GetOr("")
                + PriceLabel + p.price.GetOr("");
    assert (head + rest)[..|DocLead|] == head[..|DocLead|];
    head + rest
  }

  /** A product with no fields at all still yields the full frame. */
  lemma DocumentOfEmptyProduct()
    ensures ProductDocument(RawProduct(None, None, None, None, None, None))
      == DocLead + CategoryLabel + DescriptionLabel + PriceLabel
  {
  }

  /** The metadata record of a product, absent fields as the empty string. */
  function ProductMetadata(p: RawProduct): (m: Meta)
    ensures m.ProductMeta? && m.productId == IdText(p.id)
    ensures m.title == p.title.GetOr("") && m.price == p.price.GetOr("") && m.category == p.category.GetOr("")
    ensures m.image == p.image.GetOr("") && m.description == p.description.GetOr("")
  {
    ProductMeta(IdText(p.id), p.title.GetOr(""), p.price.GetOr(""), p.category.GetOr(""), p.image.GetOr(""),
                p.description.GetOr(""))
  }

  const HubDescriptionId := "hub_info_description"
  const DescriptionTopic := "description"
  const GeneralContent := "general"
  const FaqContent := "faq"
  const QuestionLead := "Q: "
  const AnswerLead := " A: "
  const ProductIdLead := "product_"
  const FaqIdLead := "hub_info_faq_"

  /**
   * What one position in the three parallel lists was built from; its
   * document, metadata record and id are rendered from it.
   */
  datatype Entry = ProductEntry(product: RawProduct) | HubEntry(description: string) | FaqEntry(faq: Faq, idx: nat)

  function FaqText(faq: Faq): string { QuestionLead + faq.question + AnswerLead + faq.answer }

  function DocumentOf(e: Entry): string {
    match e
    case ProductEntry(p) => ProductDocument(p)
    case HubEntry(d) => d
    case FaqEntry(faq, _) => FaqText(faq)
  }

  function MetadataOf(e: Entry): Meta {
    match e
    case ProductEntry(p) => ProductMetadata(p)
    case HubEntry(_) => HubMeta(DescriptionTopic, GeneralContent)
    case FaqEntry(faq, _) => FaqMeta(faq.topic, faq.question, faq.answer, FaqContent)
  }

  function IdOf(e: Entry): string {
    match e
    case ProductEntry(p) => ProductIdLead + IdText(p.id)
    case HubEntry(_) => HubDescriptionId
    case FaqEntry(_, idx) => FaqIdLead + IntToString(idx)
  }

  /** What one pass of the product loop appends: the product, then the platform description and every FAQ. */
  function Block(p: RawProduct, hub: HubInfo): seq<Entry> {
    [ProductEntry(p), HubEntry(hub.description)]
      + seq(|hub.faqs|, j requires 0 <= j < |hub.faqs| => FaqEntry(hub.faqs[j], j))
  }

  /** The blocks appended for each product, in catalog order. */
  function Blocks(ps: seq<RawProduct>, hub: HubInfo): (r: seq<seq<Entry>>)
    ensures |r| == |ps| && forall i :: 0 <= i < |ps| ==> r[i] == Block(ps[i], hub)
  {
    seq(|ps|, i requires 0 <= i < |ps| => Block(ps[i], hub))
  }

  /** The lists after the loop has run over `ps`. */
  function Entries(ps: seq<RawProduct>, hub: HubInfo): seq<Entry> {
    Flatten(Blocks(ps, hub))
  }

  /** The blocks one after the other. */
  function Flatten<T>(blocks: seq<seq<T>>): seq<T>
    decreases |blocks|
  {
    if blocks == [] then [] else Flatten(blocks[..|blocks| - 1]) + blocks[|blocks| - 1]
  }

  function Documents(es: seq<Entry>): seq<string> {
    seq(|es|, j requires 0 <= j < |es| => DocumentOf(es[j]))
  }

  function Metadatas(es: seq<Entry>): seq<Meta> {
    seq(|es|, j requires 0 <= j < |es| => MetadataOf(es[j]))
  }

  function Ids(es: seq<Entry>): seq<string> {
    seq(|es|, j requires 0 <= j < |es| => IdOf(es[j]))
  }

  /** The three lists handed to `collection.add`. */
  datatype Batch = Batch(documents: seq<string>, metadatas: seq<Meta>, ids: seq<string>)

  function BatchOf(es: seq<Entry>): Batch {
    Batch(Documents(es), Metadatas(es), Ids(es))
  }

  /** The calls to `collection.add`, one after each product, each with everything built so far. */
  function Batches(ps: seq<RawProduct>, hub: HubInfo): seq<Batch>
    decreases |ps|
  {
    if ps == [] then [] else Batches(ps[..|ps| - 1], hub) + [BatchOf(Entries(ps, hub))]
  }

  /** Blocks of one width w: k of them flatten to k·w elements. */
  lemma {:induction false} FlattenLength<T>(blocks: seq<seq<T>>, w: nat)
    requires forall i :: 0 <= i < |blocks| ==> |blocks[i]| == w
    ensures |Flatten(blocks)| == |blocks| * w
    decreases |blocks|
  {
    if blocks != [] {
      var n := |blocks| - 1;
      FlattenLength(blocks[..n], w);
      MulStep(n, w);
    }
  }

  /** Element j of block i sits at position i·w + j. */
  lemma {:induction false} FlattenAt<T>(blocks: seq<seq<T>>, w: nat, i: nat, j: nat)
    requires forall k :: 0 <= k < |blocks| ==> |blocks[k]| == w
    requires i < |blocks| && j < w
    ensures i * w + j < |Flatten(blocks)|
    ensures Flatten(blocks)[i * w + j] == blocks[i][j]
    decreases |blocks|
  {
    var n := |blocks| - 1;
    var left := Flatten(blocks[..n]);
    FlattenLength(blocks[..n], w);
    FlattenLength(blocks, w);
    if i < n {
      MulStep(i, w);
      MulMono(i + 1, n, w);
      FlattenAt(blocks[..n], w, i, j);
    } else {
      assert i * w == |left|;
    }
  }

  /** Running the loop body once more appends one block. */
  lemma EntriesStep(ps: seq<RawProduct>, hub: HubInfo)
    requires ps != []
    ensures Entries(ps, hub) == Entries(ps[..|ps| - 1], hub) + Block(ps[|ps| - 1], hub)
  {
    assert Blocks(ps, hub)[..|ps| - 1] == Blocks(ps[..|ps| - 1], hub);
  }

  /** After k products the lists hold k blocks of 2 + F entries each. */
  lemma EntriesLength(ps: seq<RawProduct>, hub: HubInfo)
    ensures |Entries(ps, hub)| == |ps| * (2 + |hub.faqs|)
  {
    FlattenLength(Blocks(ps, hub), 2 + |hub.faqs|);
  }

  /** Entry j of the block built for product i sits at position i·(2+F) + j. */
  lemma EntryAt(ps: seq<RawProduct>, hub: HubInfo, i: nat, j: nat)
    requires i < |ps| && j < 2 + |hub.faqs|
    ensures i * (2 + |hub.faqs|) + j < |Entries(ps, hub)|
    ensures Entries(ps, hub)[i * (2 + |hub.faqs|) + j] == Block(ps[i], hub)[j]
  {
    FlattenAt(Blocks(ps, hub), 2 + |hub.faqs|, i, j);
  }

  lemma MulStep(n: nat, w: nat)
    ensures (n + 1) * w == n * w + w
  {
  }

  lemma {:induction false} MulMono(a: nat, b: nat, w: nat)
    requires a <= b
    ensures a * w <= b * w
    decreases b - a
  {
    if a < b {
      MulMono(a, b - 1, w);
      MulStep(b - 1, w);
    }
  }

  /** Product i's own entry opens its block, at position i·(2+F). */
  lemma ProductEntryAt(ps: seq<RawProduct>, hub: HubInfo, i: nat)
    requires i < |ps|
    ensures i * (2 + |hub.faqs|) < |Entries(ps, hub)|
    ensures Entries(ps, hub)[i * (2 + |hub.faqs|)] == ProductEntry(ps[i])
  {
    EntryAt(ps, hub, i, 0);
  }

  /** The platform description follows every product. */
  lemma HubEntryAt(ps: seq<RawProduct>, hub: HubInfo, i: nat)
    requires i < |ps|
    ensures i * (2 + |hub.faqs|) + 1 < |Entries(ps, hub)|
    ensures Entries(ps, hub)[i * (2 + |hub.faqs|) + 1] == HubEntry(hub.description)
  {
    EntryAt(ps, hub, i, 1);
  }

  /** FAQ j of the block of product i, with its index j. */
  lemma FaqEntryAt(ps: seq<RawProduct>, hub: HubInfo, i: nat, j: nat)
    requires i < |ps| && j < |hub.faqs|
    ensures i * (2 + |hub.faqs|) + 2 + j < |Entries(ps, hub)|
    ensures Entries(ps, hub)[i * (2 + |hub.faqs|) + 2 + j] == FaqEntry(hub.faqs[j], j)
  {
    EntryAt(ps, hub, i, 2 + j);
  }

  /** Product i's entry carries the id `product_{id}`. */
  lemma ProductIdAt(ps: seq<RawProduct>, hub: HubInfo, i: nat)
    requires i < |ps|
    ensures i * (2 + |hub.faqs|) < |Ids(Entries(ps, hub))|
    ensures Ids(Entries(ps, hub))[i * (2 + |hub.faqs|)] == ProductIdLead + IdText(ps[i].id)
  {
    ProductEntryAt(ps, hub, i);
  }

  /** The platform description after product i carries the id `hub_info_description`. */
  lemma HubIdAt(ps: seq<RawProduct>, hub: HubInfo, i: nat)
    requires i < |ps|
    ensures i * (2 + |hub.faqs|) + 1 < |Ids(Entries(ps, hub))|
    ensures Ids(Entries(ps, hub))[i * (2 + |hub.faqs|) + 1] == HubDescriptionId
  {
    HubEntryAt(ps, hub, i);
  }

  /** FAQ j after product i carries the id `hub_info_faq_{j}`. */
  lemma FaqIdAt(ps: seq<RawProduct>, hub: HubInfo, i: nat, j: nat)
    requires i < |ps| && j < |hub.faqs|
    ensures i * (2 + |hub.faqs|) + 2 + j < |Ids(Entries(ps, hub))|
    ensures Ids(Entries(ps, hub))[i * (2 + |hub.faqs|) + 2 + j] == FaqIdLead + IntToString(j)
  {
    FaqEntryAt(ps, hub, i, j);
  }

  /**
   * From the second product on, the id `hub_info_description` occurs twice
   * in the lists handed to the collection: the ids are not unique.
   */
  lemma HubIdRepeats(ps: seq<RawProduct>, hub: HubInfo)
    requires |ps| >= 2
    ensures var ids := Ids(Entries(ps, hub));
      3 + |hub.faqs| < |ids| && ids[1] == HubDescriptionId && ids[3 + |hub.faqs|] == HubDescriptionId
  {
    HubIdAt(ps, hub, 0);
    HubIdAt(ps, hub, 1);
  }

  /** Call k hands over the entries of the first k + 1 products, in three lists of equal length. */
  lemma {:induction false} BatchesGrow(ps: seq<RawProduct>, hub: HubInfo, k: nat)
    requires k < |ps|
    ensures |Batches(ps, hub)| == |ps|
    ensures Batches(ps, hub)[k] == BatchOf(Entries(ps[..k + 1], hub))
    ensures |Batches(ps, hub)[k].documents| == |Batches(ps, hub)[k].metadatas| == |Batches(ps, hub)[k].ids|
                                            == (k + 1) * (2 + |hub.faqs|)
    decreases |ps|
  {
    var n := |ps| - 1;
    BatchesCount(ps, hub);
    if k < n {
      BatchesGrow(ps[..n], hub, k);
      assert ps[..n][..k + 1] == ps[..k + 1];
    } else {
      assert ps[..k + 1] == ps;
    }
    EntriesLength(ps[..k + 1], hub);
  }

  lemma {:induction false} BatchesCount(ps: seq<RawProduct>, hub: HubInfo)
    ensures |Batches(ps, hub)| == |ps|
    decreases |ps|
  {
    if ps != [] {
      BatchesCount(ps[..|ps| - 1], hub);
    }
  }

  /** The vector collection, recording every `add` it receives. */
  class Collection {
    var batches: seq<Batch>

    constructor()
      ensures batches == []
    {
      batches := [];
    }

    method Add(documents: seq<string>, metadatas: seq<Meta>, ids: seq<string>)
      modifies this
      ensures batches == old(batches) + [Batch(documents, metadatas, ids)]
    {
      batches := batches + [Batch(documents, metadatas, ids)];
    }
  }

  /**
   * The building loop of `embed_and_store_products`, over the products
   * `get_products` returned: nothing at all for an empty catalog, otherwise
   * one `add` per product with the lists built so far.
   */
  method EmbedAndStore(products: seq<RawProduct>, hub: HubInfo, collection: Collection)
    modifies collection
    ensures collection.batches == old(collection.batches) + Batches(products, hub)
  {
    if products == [] {
      return;
    }
    var documents: seq<string> := [];
    var metadatas: seq<Meta> := [];
    var ids: seq<string> := [];
    for i := 0 to |products|
      invariant documents == Documents(Entries(products[..i], hub))
      invariant metadatas == Metadatas(Entries(products[..i], hub))
      invariant ids == Ids(Entries(products[..i], hub))
      invariant collection.batches == old(collection.batches) + Batches(products[..i], hub)
    {
      ghost var built := Entries(products[..i], hub);
      documents, metadatas, ids := AppendBlock(documents, metadatas, ids, built, products[i], hub);
      assert products[..i + 1][..i] == products[..i];
      EntriesStep(products[..i + 1], hub);
      collection.Add(documents, metadatas, ids);
    }
    assert products[..|products|] == products;
  }

  /**
   * One pass of the product loop: the product's document, metadata and id,
   * then the platform description, then every FAQ, each appended to all three lists.
   */
  method AppendBlock(documents0: seq<string>, metadatas0: seq<Meta>, ids0: seq<string>, ghost built: seq<Entry>,
                     product: RawProduct, hub: HubInfo)
    returns (documents: seq<string>, metadatas: seq<Meta>, ids: seq<string>)
    requires documents0 == Documents(built) && metadatas0 == Metadatas(built) && ids0 == Ids(built)
    ensures documents == Documents(built + Block(product, hub))
    ensures metadatas == Metadatas(built + Block(product, hub))
    ensures ids == Ids(built + Block(product, hub))
  {
    ghost var block := Block(product, hub);
    Append(built, ProductEntry(product));
    documents := documents0 + [ProductDocument(product)];
    metadatas := metadatas0 + [ProductMetadata(product)];
    ids := ids0 + [ProductIdLead + IdText(product.id)];
    ghost var sofar := built + [ProductEntry(product)];
    Append(sofar, HubEntry(hub.description));
    documents := documents + [hub.description];
    metadatas := metadatas + [HubMeta(DescriptionTopic, GeneralContent)];
    ids := ids + [HubDescriptionId];
    sofar := sofar + [HubEntry(hub.description)];
    assert sofar == built + block[..2];
    for idx := 0 to |hub.faqs|
      invariant sofar == built + block[..2 + idx]
      invariant documents == Documents(sofar) && metadatas == Metadatas(sofar) && ids == Ids(sofar)
    {
      var faq := hub.faqs[idx];
      Append(sofar, FaqEntry(faq, idx));
      documents := documents + [FaqText(faq)];
      metadatas := metadatas + [FaqMeta(faq.topic, faq.question, faq.answer, FaqContent)];
      ids := ids + [FaqIdLead + IntToString(idx)];
      assert block[..2 + idx + 1] == block[..2 + idx] + [FaqEntry(faq, idx)];
      sofar := sofar + [FaqEntry(faq, idx)];
    }
    assert block[..2 + |hub.faqs|] == block;
  }

  /** Appending one entry appends its document, metadata and id to the three lists. */
  lemma Append(es: seq<Entry>, e: Entry)
    ensures Documents(es + [e]) == Documents(es) + [DocumentOf(e)]
    ensures Metadatas(es + [e]) == Metadatas(es) + [MetadataOf(e)]
    ensures Ids(es + [e]) == Ids(es) + [IdOf(e)]
  {
  }
}
