/**
 * The values that flow between the create-products handlers: the workflow
 * input, the data `prepare` produces, the products `createProducts` returns,
 * and the responses the orchestrator saves under each action id.
 */
module ProductTypes {

  type Handle = string

  /** One price of a variant, carried through unchanged. */
  datatype Price = Price(currencyCode: string, amount: int)

  /** The `{ index, prices }` entry kept per product handle. */
  datatype IndexPrices = IndexPrices(index: int, prices: seq<Price>)

  /** `productsHandleVariantsIndexPricesMap`. */
  type PricesMap = map<Handle, IndexPrices>

  datatype Product = Product(id: string, handle: Handle)

  /** The fields of `CreateProductsPreparedData` the handlers read. */
  datatype PreparedData = PreparedData(
    productsHandleShippingProfileIdMap: map<Handle, string>,
    productsHandleSalesChannelsMap: map<Handle, seq<string>>,
    productsHandleVariantsIndexPricesMap: PricesMap)

  /** The workflow input (`CreateProductsWorkflowInputData`), passed on as it is. */
  datatype WorkflowInput = WorkflowInput(products: seq<string>)

  /**
   * A response the orchestrator saved for a step: prepared data, a list of
   * products, or the result of some other business function, identified only
   * by a token since the handlers never look inside it.
   */
  datatype Response =
    | PreparedResponse(prepared: PreparedData)
    | ProductsResponse(products: seq<Product>)
    | OtherResponse(token: nat)
}
