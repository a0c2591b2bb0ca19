/** The route that binds a store's public hostname to its WordPress service. */
module IngressTemplate {
  import opened Resources

  const IngressName: string := "store-ingress"
  const BodySizeAnnotation: string := "nginx.ingress.kubernetes.io/proxy-body-size"

  function StoreIngress(storeId: string, storeUrl: string): Ingress {
    Ingress(
      Meta(IngressName, StoreNamespace(storeId), map[], map[BodySizeAnnotation := "50m"]),
      "nginx",
      [IngressRule(storeUrl, [IngressPath("/", "Prefix", "wordpress", 80)])])
  }

  /**
   * One rule for exactly the store's hostname, one `/` prefix path to service
   * `wordpress` port 80, class `nginx`, bodies up to 50m, in the store's namespace.
   */
  lemma IngressShape(storeId: string, storeUrl: string)
    ensures var ing := StoreIngress(storeId, storeUrl);
      && ing.meta.name == "store-ingress"
      && ing.meta.namespace == StoreNamespace(storeId)
      && |ing.rules| == 1
      && ing.rules[0].host == storeUrl
      && ing.rules[0].paths == [IngressPath("/", "Prefix", "wordpress", 80)]
      && ing.ingressClassName == "nginx"
      && ing.meta.annotations == map["nginx.ingress.kubernetes.io/proxy-body-size" := "50m"]
  {
  }
}
