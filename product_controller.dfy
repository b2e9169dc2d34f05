/**
 * The catalog handlers `createProduct` and `getProducts`. The image upload
 * service and the database query are external: `upload` stands for
 * `uploadImage` (`None` when it rejects) and `run` for
 * `Product.find(filter).skip(n).limit(10)` (`None` when it rejects).
 */
module ProductController {
  import opened Wrappers
  import opened ProductSchemas
  import opened Ids

  /** A multipart file as multer hands it over; only its bytes are uploaded. */
  datatype UploadedFile = UploadedFile(buffer: seq<bv8>)

  /** What `uploadImage` resolves to. */
  datatype Image = Image(url: string, thumbnail: string, id: string)

  datatype Product = Product(
    id: ObjectId, title: string, description: Option<string>, price: Price,
    seller: Option<string>, images: seq<Image>, stock: nat)

  datatype ReplyBody = MessageOnly | Created(product: Product) | Listed(products: seq<Product>)

  datatype Reply = Reply(status: int, message: string, body: ReplyBody)

  /** The buffers handed to `uploadImage`, one call per file, in file order. */
  function UploadCalls(files: seq<UploadedFile>): (calls: seq<seq<bv8>>)
    ensures |calls| == |files|
    ensures forall i :: 0 <= i < |files| ==> calls[i] == files[i].buffer
    decreases |files|
  {
    if files == [] then [] else [files[0].buffer] + UploadCalls(files[1..])
  }

  /** `Promise.all(files.map(upload))`: every upload must succeed; the images keep the file order. */
  function UploadAll(files: seq<UploadedFile>, upload: seq<bv8> -> Option<Image>): (images: Option<seq<Image>>)
    ensures images.Some? <==> forall i :: 0 <= i < |files| ==> upload(files[i].buffer).Some?
    ensures images.Some? ==> |images.value| == |files|
    ensures images.Some? ==> forall i :: 0 <= i < |files| ==> images.value[i] == upload(files[i].buffer).value
    decreases |files|
  {
    if files == [] then Some([])
    else
      match (upload(files[0].buffer), UploadAll(files[1..], upload))
      case (Some(image), Some(rest)) => Some([image] + rest)
      case _ => None
  }

  /** What every stored product satisfies: it passed the create schema, and ids are distinct and below the counter. */
  predicate CatalogInvariant(products: seq<Product>, nextId: ObjectId) {
    && (forall i :: 0 <= i < |products| ==>
          products[i].id < nextId && products[i].title != "" && products[i].price.amount >= 0.0)
    && (forall i, j :: 0 <= i < j < |products| ==> products[i].id != products[j].id)
  }

  class ProductStore {
    var products: seq<Product>
    var nextId: ObjectId

    ghost predicate Valid()
      reads this
    {
      CatalogInvariant(products, nextId)
    }

    constructor ()
      ensures Valid() && products == []
    {
      products := [];
      nextId := 0;
    }

    /** `createProduct`. `sellerId` is what `verify` put on the request, `files` is `req.files`,
        and `accepted` says whether `Product.create` resolves. `uploads` lists the upload calls made. */
    method Create(body: RawProduct, sellerId: Option<string>, files: Option<seq<UploadedFile>>,
                  upload: seq<bv8> -> Option<Image>, accepted: bool)
      returns (reply: Reply, uploads: seq<seq<bv8>>)
      requires Valid()
      modifies this
      ensures Valid()
      ensures ParseProduct(body).None? ==>
        reply == Reply(400, "Invalid data", MessageOnly) && uploads == [] &&
        products == old(products) && nextId == old(nextId)
      ensures ParseProduct(body).Some? ==> uploads == UploadCalls(files.GetOr([]))
      ensures ParseProduct(body).Some? && (UploadAll(files.GetOr([]), upload).None? || !accepted) ==>
        reply == Reply(500, "Failed to create product", MessageOnly) &&
        products == old(products) && nextId == old(nextId)
      ensures ParseProduct(body).Some? && UploadAll(files.GetOr([]), upload).Some? && accepted ==>
        var data := ParseProduct(body).value;
        var product := Product(old(nextId), data.title, data.description, data.price, sellerId,
                               UploadAll(files.GetOr([]), upload).value, data.stock);
        && products == old(products) + [product]
        && nextId == old(nextId) + 1
        && reply == Reply(200, "Product created", Created(product))
    {
      var parsed := ParseProduct(body);
      if parsed.None? {
        return Reply(400, "Invalid data", MessageOnly), [];
      }
      var data := parsed.value;
      var fileList := files.GetOr([]);
      uploads := UploadCalls(fileList);
      var images := UploadAll(fileList, upload);
      if images.None? || !accepted {
        return Reply(500, "Failed to create product", MessageOnly), uploads;
      }
      var product := Product(nextId, data.title, data.description, data.price, sellerId, images.value, data.stock);
      products := products + [product];
      nextId := nextId + 1;
      reply := Reply(200, "Product created", Created(product));
    }
  }

  // ---------------------------------------------------------------- listing

  /** A query-string value: missing, a single string, or a repeated key (which arrives as an array). */
  datatype QueryValue = Missing | Single(text: string) | Repeated(values: seq<string>)

  /** The result of `Number(...)`. */
  datatype Num = Finite(value: int) | NaN

  /** A numeric query parameter: its raw text and what `Number` makes of it. */
  datatype NumericParam = NumericParam(raw: string, number: Num)

  datatype CatalogQuery = CatalogQuery(
    q: QueryValue, minprice: Option<NumericParam>, maxprice: Option<NumericParam>, skip: Option<NumericParam>)

  /** The `price.amount` condition: `$gte` and `$lte`, each optional. */
  datatype PriceBounds = PriceBounds(gte: Option<Num>, lte: Option<Num>)

  /** The `Filter` object: an optional `$text` search and an optional `price.amount` condition. */
  datatype Filter = Filter(text: Option<string>, price: Option<PriceBounds>)

  datatype QueryPlan = QueryPlan(filter: Filter, skip: int, limit: nat)

  const PageSize: nat := 10

  /** `if (minprice)`: the parameter is present and its text is non-empty. */
  predicate Given(p: Option<NumericParam>) {
    p.Some? && p.value.raw != ""
  }

  /** Builds the filter, the skip and the limit exactly as `getProducts` does, step by step. */
  method PlanQuery(query: CatalogQuery) returns (plan: QueryPlan)
    ensures plan.filter.text.Some? <==> query.q.Single? && query.q.text != ""
    ensures plan.filter.text.Some? ==> plan.filter.text.value == query.q.text
    ensures plan.filter.price.Some? <==> Given(query.minprice) || Given(query.maxprice)
    ensures plan.filter.price.Some? ==>
      && (plan.filter.price.value.gte.Some? <==> Given(query.minprice))
      && (plan.filter.price.value.lte.Some? <==> Given(query.maxprice))
      && (Given(query.minprice) ==> plan.filter.price.value.gte == Some(query.minprice.value.number))
      && (Given(query.maxprice) ==> plan.filter.price.value.lte == Some(query.maxprice.value.number))
    ensures query.skip.Some? && query.skip.value.number.Finite? ==> plan.skip == query.skip.value.number.value
    ensures query.skip.None? || query.skip.value.number.NaN? ==> plan.skip == 0
    ensures plan.limit == PageSize
  {
    var filter := Filter(None, None);
    if query.q.Single? && query.q.text != "" {
      filter := filter.(text := Some(query.q.text));
    }
    if Given(query.minprice) {
      var previous := filter.price.GetOr(PriceBounds(None, None));
      filter := filter.(price := Some(previous.(gte := Some(query.minprice.value.number))));
    }
    if Given(query.maxprice) {
      var previous := filter.price.GetOr(PriceBounds(None, None));
      filter := filter.(price := Some(previous.(lte := Some(query.maxprice.value.number))));
    }
    // Number(skip) || 0: NaN and 0 are both falsy
    var skip := if query.skip.Some? && query.skip.value.number.Finite? then query.skip.value.number.value else 0;
    plan := QueryPlan(filter, skip, PageSize);
  }

  /** `getProducts`: plans the query, runs it, and answers. */
  method GetProducts(query: CatalogQuery, run: QueryPlan -> Option<seq<Product>>)
    returns (plan: QueryPlan, reply: Reply)
    ensures plan.limit == PageSize
    ensures query == CatalogQuery(Missing, None, None, None) ==> plan == QueryPlan(Filter(None, None), 0, PageSize)
    ensures run(plan).None? ==> reply == Reply(500, "Failed to get all products", MessageOnly)
    ensures run(plan) == Some([]) ==> reply == Reply(200, "No products found", Listed([]))
    ensures run(plan).Some? && run(plan).value != [] ==> reply == Reply(200, "products found", Listed(run(plan).value))
  {
    plan := PlanQuery(query);
    var found := run(plan);
    if found.None? {
      reply := Reply(500, "Failed to get all products", MessageOnly);
    } else if |found.value| == 0 {
      reply := Reply(200, "No products found", Listed([]));
    } else {
      reply := Reply(200, "products found", Listed(found.value));
    }
  }
}
