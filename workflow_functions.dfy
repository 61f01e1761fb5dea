/**
 * The business functions the handlers call. Their bodies are not part of
 * this model: a call is recorded as the function's name applied to the
 * arguments the handler passed, so the handlers can be compared by what they
 * call and with what.
 */
module WorkflowFunctions {

  import opened Wrappers
  import opened ProductTypes

  datatype Call =
    | PrepareCreateProductsData(data: WorkflowInput)
    | CreateProducts(data: WorkflowInput)
    | RemoveProducts(products: Option<Response>)
    | AttachShippingProfileToProducts(
        productsHandleShippingProfileIdMap: Option<map<Handle, string>>, products: Option<Response>)
    | DetachShippingProfileFromProducts(
        productsHandleShippingProfileIdMap: Option<map<Handle, string>>, products: Option<Response>)
    | AttachSalesChannelToProducts(
        productsHandleSalesChannelsMap: Option<map<Handle, seq<string>>>, products: Option<Response>)
    | DetachSalesChannelFromProducts(
        productsHandleSalesChannelsMap: Option<map<Handle, seq<string>>>, products: Option<Response>)
    | CreateInventoryItems(products: Option<Response>)
    | RemoveInventoryItems(inventoryItems: Option<Response>)
    | AttachInventoryItems(inventoryItems: Option<Response>)
    | DetachInventoryItems(inventoryItems: Option<Response>)
    | UpdateProductsVariantsPrices(products: Option<Response>, productsHandleVariantsIndexPricesMap: Option<PricesMap>)
      /** `productService.retrieve` of one product followed by `pricingService.setProductPrices`. */
    | RetrieveProductWithPrices(productId: string)

  /** The four functions that need the inventory service. */
  predicate IsInventoryCall(call: Call)
  {
    call.CreateInventoryItems? || call.RemoveInventoryItems? ||
    call.AttachInventoryItems? || call.DetachInventoryItems?
  }
}
